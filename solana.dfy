/**
 * The parts of the host ledger runtime (the `solana_program` crate) that the
 * program's core relies on: bytes, public keys, account views, errors,
 * instruction envelopes and the well-known program identities.
 */
module Solana {
  import opened Wrappers

  type byte = b: int | 0 <= b < 256

  type u32 = n: int | 0 <= n < 0x1_0000_0000

  /** A 32-byte public key (`Pubkey`). */
  type Pubkey = s: seq<byte> | |s| == 32 witness seq(32, _ => 0)

  /** The system program, `11111111111111111111111111111111`: 32 zero bytes. */
  const SYSTEM_PROGRAM_ID: Pubkey :=
    [0, 0, 0, 0, 0, 0, 0, 0, 0, 0, 0, 0, 0, 0, 0, 0,
     0, 0, 0, 0, 0, 0, 0, 0, 0, 0, 0, 0, 0, 0, 0, 0]

  /** The SPL token program, `TokenkegQfeZyiNwAJbNbGKPFXCWuBvf9Ss623VQ5DA`. */
  const SPL_TOKEN_ID: Pubkey :=
    [0x06, 0xdd, 0xf6, 0xe1, 0xd7, 0x65, 0xa1, 0x93, 0xd9, 0xcb, 0xe1, 0x46, 0xce, 0xeb, 0x79, 0xac,
     0x1c, 0xb4, 0x85, 0xed, 0x5f, 0x5b, 0x37, 0x91, 0x3a, 0x8c, 0xf5, 0x85, 0x7e, 0xff, 0x00, 0xa9]

  /** The rent sysvar, `SysvarRent111111111111111111111111111111111`. */
  const RENT_SYSVAR_ID: Pubkey :=
    [0x06, 0xa7, 0xd5, 0x17, 0x19, 0x2c, 0x5c, 0x51, 0x21, 0x8c, 0xc9, 0x4c, 0x3d, 0x4a, 0xf1, 0x7f,
     0x58, 0xda, 0xee, 0x08, 0x9b, 0xa1, 0xfd, 0x44, 0xe3, 0xdb, 0xd9, 0x8a, 0x00, 0x00, 0x00, 0x00]

  /**
   * `ProgramError`, restricted to the variants this program returns itself,
   * plus `InvalidArgument`, the error `Rent::from_account_info` gives for an
   * account that is not the rent sysvar (a loader result the host supplies).
   */
  datatype ProgramError =
    | Custom(code: u32)
    | InvalidArgument
    | MissingRequiredSignature
    | NotEnoughAccountKeys
    | IllegalOwner

  /**
   * What one run of the program ends in: `Ok(())`, an error returned to the
   * runtime, or a panic, which aborts the transaction as well.
   */
  datatype ProgramResult = Success | Failure(err: ProgramError) | Abort

  /** The runtime's view of one account handed to the program (`AccountInfo`). */
  datatype AccountInfo = AccountInfo(key: Pubkey, isSigner: bool, owner: Pubkey)

  /** One entry of an instruction's account list (`AccountMeta`). */
  datatype AccountMeta = AccountMeta(pubkey: Pubkey, isSigner: bool, isWritable: bool)

  /** `AccountMeta::new`: a writable account. */
  function WritableMeta(key: Pubkey, isSigner: bool): (m: AccountMeta)
    ensures m.pubkey == key && m.isSigner == isSigner && m.isWritable
  {
    AccountMeta(key, isSigner, true)
  }

  /** `AccountMeta::new_readonly`: a read-only account. */
  function ReadonlyMeta(key: Pubkey, isSigner: bool): (m: AccountMeta)
    ensures m.pubkey == key && m.isSigner == isSigner && !m.isWritable
  {
    AccountMeta(key, isSigner, false)
  }

  /** An instruction envelope: target program, ordered accounts, body. */
  datatype Instruction = Instruction(programId: Pubkey, accounts: seq<AccountMeta>, data: seq<byte>)

  /**
   * The bump search of `Pubkey::find_program_address(seeds, program_id)`: a
   * deterministic function of the ordered seed list and the deriving
   * program, giving an address and its bump byte. `None` stands for the
   * panic raised when no bump in 0..255 yields an address off the curve.
   */
  type Deriver = (seq<seq<byte>>, Pubkey) -> Option<(Pubkey, byte)>

  /** `MAX_SEED_LEN`: no seed of a program-derived address may be longer. */
  const MAX_SEED_LEN: nat := 32

  predicate SeedsFit(seeds: seq<seq<byte>>) {
    forall k :: 0 <= k < |seeds| ==> |seeds[k]| <= MAX_SEED_LEN
  }

  /**
   * `Pubkey::find_program_address`: a seed longer than `MAX_SEED_LEN` makes
   * every candidate address fail, so the search panics; otherwise the
   * outcome is the deriver's.
   */
  function FindProgramAddress(derive: Deriver, seeds: seq<seq<byte>>, programId: Pubkey)
    : Option<(Pubkey, byte)>
  {
    if SeedsFit(seeds) then derive(seeds, programId) else None
  }
}

/**
 * Cross-program invocations: the calls the program asks the system program
 * and the SPL token program to perform, and the collaborators whose
 * behaviour the model treats as opaque.
 */
module Cpi {
  import opened Wrappers
  import opened Solana

  /** `spl_token::instruction::AuthorityType`. */
  datatype AuthorityType = MintTokens | FreezeAccount | AccountOwner | CloseAccount

  /** The instruction constructors of the system program and the SPL token program. */
  datatype Call =
    | CreateAccount(from: Pubkey, to: Pubkey, lamports: nat, space: nat, owner: Pubkey)
    | InitializeMint(tokenProgram: Pubkey, mint: Pubkey, mintAuthority: Pubkey,
                     freezeAuthority: Option<Pubkey>, decimals: byte)
    | InitializeAccount(tokenProgram: Pubkey, account: Pubkey, mint: Pubkey, owner: Pubkey)
    | MintTo(tokenProgram: Pubkey, mint: Pubkey, account: Pubkey, authority: Pubkey,
             signers: seq<Pubkey>, amount: nat)
    | SetAuthority(tokenProgram: Pubkey, target: Pubkey, newAuthority: Option<Pubkey>,
                   authorityType: AuthorityType, currentAuthority: Pubkey, signers: seq<Pubkey>)

  /**
   * One `invoke` or `invoke_signed`: the call, the keys of the account infos
   * passed with it, in order, and the signer seed lists (empty for `invoke`).
   */
  datatype Invocation = Invocation(call: Call, accountInfos: seq<Pubkey>, signerSeeds: seq<seq<seq<byte>>>)

  /** The rent parameters read from the rent sysvar; only their use is modelled. */
  datatype Rent = Rent(minimumBalance: nat -> nat)

  /** `spl_token::state::Mint::LEN`. */
  const MINT_LEN: nat := 82

  /** `spl_token::state::Account::LEN`. */
  const ACCOUNT_LEN: nat := 165

  /**
   * The runtime as the program sees it:
   * - `derive` is `Pubkey::find_program_address`;
   * - `loadRent` is `Rent::from_account_info`;
   * - `invoke` gives the outcome of an invocation, given the invocations
   *   already performed in this run (None meaning it succeeded).
   */
  datatype Host = Host(
    derive: Deriver,
    loadRent: AccountInfo -> Result<Rent, ProgramError>,
    invoke: (seq<Invocation>, Invocation) -> Option<ProgramError>)
}

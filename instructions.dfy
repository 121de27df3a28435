/**
 * The program's instruction: its two variants and their Borsh encoding,
 * the seed lists of the two program-derived addresses, the address lookups
 * and the two instruction builders used by off-ledger callers.
 */
module Instructions {
  import opened Wrappers
  import opened Solana
  import opened Borsh

  /** `GloweInstruction`: both variants carry an NFT name and a URL. */
  datatype GloweInstruction = Mint(name: Utf8, url: Utf8) | Mint2(name: Utf8, url: Utf8)

  /** The Borsh variant index. */
  function Tag(i: GloweInstruction): (t: byte)
    ensures t == 0 <==> i.Mint?
    ensures t < 2
  {
    if i.Mint? then 0 else 1
  }

  /** Borsh fails to write a `String` whose length does not fit in a u32. */
  predicate Serializable(i: GloweInstruction) {
    |i.name| < U32_LIMIT && |i.url| < U32_LIMIT
  }

  /** `try_to_vec`: the variant index, then `name`, then `url`. */
  function Encode(i: GloweInstruction): (r: Option<seq<byte>>)
    ensures r.Some? <==> Serializable(i)
    ensures r.Some? ==> |r.value| == 9 + |i.name| + |i.url| && r.value[0] == Tag(i)
  {
    if Serializable(i) then Some([Tag(i)] + EncodeString(i.name) + EncodeString(i.url)) else None
  }

  /** Reads an instruction off the front of `b`, returning it and the bytes after it. */
  function ParseInstruction(b: seq<byte>): (r: Option<(GloweInstruction, seq<byte>)>)
    ensures r.Some? ==> |b| > 0 && b[0] == Tag(r.value.0) && |r.value.1| + 9 <= |b|
  {
    if |b| == 0 || b[0] >= 2 then None
    else
      match ParseString(b[1..])
      case None => None
      case Some((name, afterName)) =>
        match ParseString(afterName)
        case None => None
        case Some((url, afterUrl)) =>
          Some((if b[0] == 0 then Mint(name, url) else Mint2(name, url), afterUrl))
  }

  /**
   * `GloweInstruction::try_from_slice`: succeeds only when the whole input
   * is one instruction, with nothing left over.
   */
  function Decode(b: seq<byte>): (r: Option<GloweInstruction>)
    ensures |b| == 0 ==> r.None?
    ensures |b| > 0 && b[0] >= 2 ==> r.None?
  {
    match ParseInstruction(b)
    case None => None
    case Some((i, rest)) => if rest == [] then Some(i) else None
  }

  lemma ParseInstructionOfEncoded(i: GloweInstruction, rest: seq<byte>)
    requires Serializable(i)
    ensures ParseInstruction(Encode(i).value + rest) == Some((i, rest))
  {
    var n := EncodeString(i.name);
    var u := EncodeString(i.url);
    var b := Encode(i).value + rest;
    assert b == [Tag(i)] + (n + (u + rest));
    assert b[1..] == n + (u + rest);
    ParseStringOfEncoded(i.name, u + rest);
    assert ParseString(b[1..]) == Some((i.name, u + rest));
    ParseStringOfEncoded(i.url, rest);
    assert ParseString(u + rest) == Some((i.url, rest));
  }

  lemma ParseInstructionExact(b: seq<byte>)
    requires ParseInstruction(b).Some?
    ensures Serializable(ParseInstruction(b).value.0)
    ensures b == Encode(ParseInstruction(b).value.0).value + ParseInstruction(b).value.1
  {
    assert |b| > 0 && b[0] < 2 && ParseString(b[1..]).Some?;
    var (name, afterName) := ParseString(b[1..]).value;
    assert ParseString(afterName).Some?;
    var (url, afterUrl) := ParseString(afterName).value;
    var i := if b[0] == 0 then Mint(name, url) else Mint2(name, url);
    assert ParseInstruction(b) == Some((i, afterUrl));
    assert b[1..] == EncodeString(name) + afterName by {
      ParseStringExact(b[1..]);
    }
    assert afterName == EncodeString(url) + afterUrl by {
      ParseStringExact(afterName);
    }
    EncodeAfterTag(i, b, afterName, afterUrl);
  }

  lemma EncodeAfterTag(i: GloweInstruction, b: seq<byte>, afterName: seq<byte>, afterUrl: seq<byte>)
    requires Serializable(i) && |b| > 0 && b[0] == Tag(i)
    requires b[1..] == EncodeString(i.name) + afterName
    requires afterName == EncodeString(i.url) + afterUrl
    ensures b == Encode(i).value + afterUrl
  {
    assert b == [b[0]] + b[1..];
  }

  /** Round trip: decoding an encoded instruction gives it back. */
  lemma EncodeDecode(i: GloweInstruction)
    requires Serializable(i)
    ensures Decode(Encode(i).value) == Some(i)
  {
    ParseInstructionOfEncoded(i, []);
    assert Encode(i).value + [] == Encode(i).value;
  }

  /** The encoding is canonical: a byte string that decodes is the encoding of what it decodes to. */
  lemma DecodeEncode(b: seq<byte>)
    requires Decode(b).Some?
    ensures Encode(Decode(b).value) == Some(b)
  {
    var (i, rest) := ParseInstruction(b).value;
    assert rest == [] && Decode(b) == Some(i);
    ParseInstructionExact(b);
    assert Encode(i).value + [] == Encode(i).value;
  }

  /** Every proper prefix of an encoding is rejected. */
  lemma DecodeRejectsTruncated(i: GloweInstruction, k: nat)
    requires Serializable(i)
    requires k < |Encode(i).value|
    ensures Decode(Encode(i).value[..k]) == None
  {
    var e := Encode(i).value;
    var p := e[..k];
    if Decode(p).Some? {
      var j := Decode(p).value;
      DecodeEncode(p);
      assert e == Encode(j).value + e[k..];
      ParseInstructionOfEncoded(j, e[k..]);
      assert e + [] == e;
      ParseInstructionOfEncoded(i, []);
      assert false;
    }
  }

  // ------------------------------------------------------------------ seeds

  /** `b"glowenft"`, `b"mint"`, `b"owner"`. */
  const GLOWENFT_SEED: seq<byte> := [0x67, 0x6c, 0x6f, 0x77, 0x65, 0x6e, 0x66, 0x74]
  const MINT_SEED: seq<byte> := [0x6d, 0x69, 0x6e, 0x74]
  const OWNER_SEED: seq<byte> := [0x6f, 0x77, 0x6e, 0x65, 0x72]

  /** The placeholder program identity the address lookups derive under, `[42; 32]`. */
  const LOOKUP_PROGRAM_ID: Pubkey :=
    [42, 42, 42, 42, 42, 42, 42, 42, 42, 42, 42, 42, 42, 42, 42, 42,
     42, 42, 42, 42, 42, 42, 42, 42, 42, 42, 42, 42, 42, 42, 42, 42]

  /** `derive_mint_account_seeds`. */
  function MintAccountSeeds(programId: Pubkey, tokenProgramId: Pubkey, payer: Pubkey, nftName: Utf8)
    : (seeds: seq<seq<byte>>)
    ensures |seeds| == 6 && seeds[1] == nftName && seeds[2] == MINT_SEED
  {
    [GLOWENFT_SEED, nftName, MINT_SEED, programId, tokenProgramId, payer]
  }

  /** `derive_token_account_seeds`. */
  function TokenAccountSeeds(programId: Pubkey, tokenProgramId: Pubkey, payer: Pubkey, nftName: Utf8,
                             owner: Pubkey)
    : (seeds: seq<seq<byte>>)
    ensures |seeds| == 7 && seeds[1] == nftName && seeds[2] == OWNER_SEED
  {
    [GLOWENFT_SEED, nftName, OWNER_SEED, programId, tokenProgramId, payer, owner]
  }

  /**
   * The two seed lists differ in their role tag, whatever the other inputs;
   * for names within the seed limit, so do the bytes that are hashed, which
   * are 108 plus the name's length long for a mint and at least 141 long
   * for a token account.
   */
  lemma MintAndTokenSeedsDiffer(p: Pubkey, t: Pubkey, a: Pubkey, n: Utf8,
                                p': Pubkey, t': Pubkey, a': Pubkey, n': Utf8, o': Pubkey)
    ensures MintAccountSeeds(p, t, a, n)[2] != TokenAccountSeeds(p', t', a', n', o')[2]
    ensures MintAccountSeeds(p, t, a, n) != TokenAccountSeeds(p', t', a', n', o')
    ensures |n| <= MAX_SEED_LEN && |n'| <= MAX_SEED_LEN ==>
      Concat(MintAccountSeeds(p, t, a, n)) != Concat(TokenAccountSeeds(p', t', a', n', o'))
  {
    MintSeedBytes(p, t, a, n);
    TokenSeedBytes(p', t', a', n', o');
  }

  /** The bytes address derivation hashes: the seeds, concatenated. */
  function Concat(seeds: seq<seq<byte>>): (r: seq<byte>) {
    if seeds == [] then [] else seeds[0] + Concat(seeds[1..])
  }

  lemma MintSeedBytes(p: Pubkey, t: Pubkey, a: Pubkey, n: Utf8)
    ensures Concat(MintAccountSeeds(p, t, a, n)) == GLOWENFT_SEED + n + MINT_SEED + p + t + a
  {
    var s := MintAccountSeeds(p, t, a, n);
    assert Concat(s[5..]) == a + Concat(s[6..]);
    assert Concat(s[3..]) == p + (t + Concat(s[5..]));
    assert Concat(s[1..]) == n + (MINT_SEED + Concat(s[3..]));
  }

  lemma TokenSeedBytes(p: Pubkey, t: Pubkey, a: Pubkey, n: Utf8, o: Pubkey)
    ensures Concat(TokenAccountSeeds(p, t, a, n, o)) == GLOWENFT_SEED + n + OWNER_SEED + p + t + a + o
  {
    var s := TokenAccountSeeds(p, t, a, n, o);
    assert Concat(s[6..]) == o + Concat(s[7..]);
    assert Concat(s[4..]) == t + (a + Concat(s[6..]));
    assert Concat(s[2..]) == OWNER_SEED + (p + Concat(s[4..]));
  }

  /**
   * Even as the concatenated bytes that are hashed, the mint seeds determine
   * the name and the three keys: every key has 32 bytes, so the name's
   * length, and then every field, is fixed by the total.
   */
  lemma MintSeedBytesInjective(p: Pubkey, t: Pubkey, a: Pubkey, n: Utf8,
                               p': Pubkey, t': Pubkey, a': Pubkey, n': Utf8)
    requires Concat(MintAccountSeeds(p, t, a, n)) == Concat(MintAccountSeeds(p', t', a', n'))
    ensures n == n' && p == p' && t == t' && a == a'
  {
    MintSeedBytes(p, t, a, n);
    MintSeedBytes(p', t', a', n');
    var x := GLOWENFT_SEED + n + MINT_SEED + p + t + a;
    var y := GLOWENFT_SEED + n' + MINT_SEED + p' + t' + a';
    assert |n| == |n'|;
    var m := |n|;
    assert n == x[8..8 + m] && n' == y[8..8 + m];
    assert p == x[12 + m..44 + m] && p' == y[12 + m..44 + m];
    assert t == x[44 + m..76 + m] && t' == y[44 + m..76 + m];
    assert a == x[76 + m..] && a' == y[76 + m..];
  }

  /** The same for the token-account seeds, owner included. */
  lemma TokenSeedBytesInjective(p: Pubkey, t: Pubkey, a: Pubkey, n: Utf8, o: Pubkey,
                                p': Pubkey, t': Pubkey, a': Pubkey, n': Utf8, o': Pubkey)
    requires Concat(TokenAccountSeeds(p, t, a, n, o)) == Concat(TokenAccountSeeds(p', t', a', n', o'))
    ensures n == n' && p == p' && t == t' && a == a' && o == o'
  {
    TokenSeedBytes(p, t, a, n, o);
    TokenSeedBytes(p', t', a', n', o');
    var x := GLOWENFT_SEED + n + OWNER_SEED + p + t + a + o;
    var y := GLOWENFT_SEED + n' + OWNER_SEED + p' + t' + a' + o';
    assert |n| == |n'|;
    var m := |n|;
    assert n == x[8..8 + m] && n' == y[8..8 + m];
    assert p == x[13 + m..45 + m] && p' == y[13 + m..45 + m];
    assert t == x[45 + m..77 + m] && t' == y[45 + m..77 + m];
    assert a == x[77 + m..109 + m] && a' == y[77 + m..109 + m];
    assert o == x[109 + m..] && o' == y[109 + m..];
  }

  // ------------------------------------------------------------- derivation

  /**
   * `derive_mint_account_internal`. The tags and keys all fit a seed, so
   * only a name longer than `MAX_SEED_LEN` bytes makes it panic before the
   * bump search.
   */
  function DeriveMintAccount(derive: Deriver, programId: Pubkey, tokenProgramId: Pubkey, payer: Pubkey,
                             nftName: Utf8)
    : (r: Option<(Pubkey, byte)>)
    ensures |nftName| > MAX_SEED_LEN ==> r.None?
    ensures |nftName| <= MAX_SEED_LEN ==>
      r == derive(MintAccountSeeds(programId, tokenProgramId, payer, nftName), programId)
  {
    var seeds := MintAccountSeeds(programId, tokenProgramId, payer, nftName);
    assert |seeds[1]| == |nftName|;
    FindProgramAddress(derive, seeds, programId)
  }

  /** `derive_token_account_internal`, which likewise panics on a name longer than `MAX_SEED_LEN` bytes. */
  function DeriveTokenAccount(derive: Deriver, programId: Pubkey, tokenProgramId: Pubkey, payer: Pubkey,
                              nftName: Utf8, owner: Pubkey)
    : (r: Option<(Pubkey, byte)>)
    ensures |nftName| > MAX_SEED_LEN ==> r.None?
    ensures |nftName| <= MAX_SEED_LEN ==>
      r == derive(TokenAccountSeeds(programId, tokenProgramId, payer, nftName, owner), programId)
  {
    var seeds := TokenAccountSeeds(programId, tokenProgramId, payer, nftName, owner);
    assert |seeds[1]| == |nftName|;
    FindProgramAddress(derive, seeds, programId)
  }

  /**
   * `get_mint_account`: the mint address, always derived under the
   * placeholder program identity and the SPL token program.
   */
  function GetMintAccount(derive: Deriver, minter: Pubkey, nftName: Utf8): (r: Option<Pubkey>)
    ensures r.Some? <==>
      |nftName| <= MAX_SEED_LEN
      && derive(MintAccountSeeds(LOOKUP_PROGRAM_ID, SPL_TOKEN_ID, minter, nftName), LOOKUP_PROGRAM_ID).Some?
    ensures r.Some? ==>
      r.value == derive(MintAccountSeeds(LOOKUP_PROGRAM_ID, SPL_TOKEN_ID, minter, nftName), LOOKUP_PROGRAM_ID).value.0
  {
    match DeriveMintAccount(derive, LOOKUP_PROGRAM_ID, SPL_TOKEN_ID, minter, nftName)
    case None => None
    case Some((address, bump)) => Some(address)
  }

  /**
   * `get_token_account`: the token-holding address, derived under the same
   * fixed identities.
   */
  function GetTokenAccount(derive: Deriver, owner: Pubkey, minter: Pubkey, nftName: Utf8): (r: Option<Pubkey>)
    ensures r.Some? <==>
      |nftName| <= MAX_SEED_LEN
      && derive(TokenAccountSeeds(LOOKUP_PROGRAM_ID, SPL_TOKEN_ID, minter, nftName, owner), LOOKUP_PROGRAM_ID).Some?
    ensures r.Some? ==>
      r.value == derive(TokenAccountSeeds(LOOKUP_PROGRAM_ID, SPL_TOKEN_ID, minter, nftName, owner), LOOKUP_PROGRAM_ID).value.0
  {
    match DeriveTokenAccount(derive, LOOKUP_PROGRAM_ID, SPL_TOKEN_ID, minter, nftName, owner)
    case None => None
    case Some((address, bump)) => Some(address)
  }

  // --------------------------------------------------------------- builders

  /** The keys, signer flags and writable flags of an account list, position by position. */
  function Keys(metas: seq<AccountMeta>): (keys: seq<Pubkey>)
    ensures |keys| == |metas| && forall k :: 0 <= k < |metas| ==> keys[k] == metas[k].pubkey
  {
    seq(|metas|, k requires 0 <= k < |metas| => metas[k].pubkey)
  }

  function SignerFlags(metas: seq<AccountMeta>): (flags: seq<bool>)
    ensures |flags| == |metas| && forall k :: 0 <= k < |metas| ==> flags[k] == metas[k].isSigner
  {
    seq(|metas|, k requires 0 <= k < |metas| => metas[k].isSigner)
  }

  function WritableFlags(metas: seq<AccountMeta>): (flags: seq<bool>)
    ensures |flags| == |metas| && forall k :: 0 <= k < |metas| ==> flags[k] == metas[k].isWritable
  {
    seq(|metas|, k requires 0 <= k < |metas| => metas[k].isWritable)
  }

  /** The account list of `mint`. */
  function MintAccountMetas(payer: Pubkey, owner: Pubkey, mintAccount: Pubkey, tokenAccount: Pubkey)
    : (metas: seq<AccountMeta>)
    ensures Keys(metas) == [payer, owner, mintAccount, tokenAccount, SPL_TOKEN_ID, SYSTEM_PROGRAM_ID, RENT_SYSVAR_ID]
    ensures SignerFlags(metas) == [true, false, false, false, false, false, false]
    ensures WritableFlags(metas) == [true, false, true, true, false, false, false]
  {
    [ WritableMeta(payer, true),
      ReadonlyMeta(owner, false),
      WritableMeta(mintAccount, false),
      WritableMeta(tokenAccount, false),
      ReadonlyMeta(SPL_TOKEN_ID, false),
      ReadonlyMeta(SYSTEM_PROGRAM_ID, false),
      ReadonlyMeta(RENT_SYSVAR_ID, false) ]
  }

  /** The account list of `mint2`. */
  function Mint2AccountMetas(payer: Pubkey, owner: Pubkey, mint: Pubkey, tokenHolder: Pubkey)
    : (metas: seq<AccountMeta>)
    ensures Keys(metas) == [payer, owner, mint, tokenHolder, SPL_TOKEN_ID, RENT_SYSVAR_ID]
    ensures SignerFlags(metas) == [true, false, false, false, false, false]
    ensures WritableFlags(metas) == [true, false, true, true, false, false]
  {
    [ WritableMeta(payer, true),
      ReadonlyMeta(owner, false),
      WritableMeta(mint, false),
      WritableMeta(tokenHolder, false),
      ReadonlyMeta(SPL_TOKEN_ID, false),
      ReadonlyMeta(RENT_SYSVAR_ID, false) ]
  }

  /**
   * `mint`: a `Mint` instruction whose accounts are the payer, the owner,
   * the two looked-up addresses, the SPL token program, the system program
   * and the rent sysvar. `None` stands for a panic: a failed serialization
   * or an address that cannot be derived.
   */
  function MintInstruction(derive: Deriver, programId: Pubkey, name: Utf8, url: Utf8, payer: Pubkey,
                           owner: Pubkey)
    : (r: Option<Instruction>)
    ensures r.Some? <==>
      Serializable(Mint(name, url)) && GetMintAccount(derive, payer, name).Some?
      && GetTokenAccount(derive, owner, payer, name).Some?
    ensures r.Some? ==>
      && r.value.programId == programId
      && Decode(r.value.data) == Some(Mint(name, url))
      && Keys(r.value.accounts)
         == [payer, owner, GetMintAccount(derive, payer, name).value,
             GetTokenAccount(derive, owner, payer, name).value,
             SPL_TOKEN_ID, SYSTEM_PROGRAM_ID, RENT_SYSVAR_ID]
      && SignerFlags(r.value.accounts) == [true, false, false, false, false, false, false]
      && WritableFlags(r.value.accounts) == [true, false, true, true, false, false, false]
  {
    match Encode(Mint(name, url))
    case None => None
    case Some(data) =>
      EncodeDecode(Mint(name, url));
      match GetMintAccount(derive, payer, name)
      case None => None
      case Some(mintAccount) =>
        match GetTokenAccount(derive, owner, payer, name)
        case None => None
        case Some(tokenAccount) =>
          Some(Instruction(programId, MintAccountMetas(payer, owner, mintAccount, tokenAccount), data))
  }

  /**
   * `mint2`: a `Mint2` instruction over caller-supplied mint and token
   * accounts, without the system program.
   */
  function Mint2Instruction(programId: Pubkey, name: Utf8, url: Utf8, payer: Pubkey, owner: Pubkey,
                            mint: Pubkey, tokenHolder: Pubkey)
    : (r: Option<Instruction>)
    ensures r.Some? <==> Serializable(Mint2(name, url))
    ensures r.Some? ==>
      && r.value.programId == programId
      && Decode(r.value.data) == Some(Mint2(name, url))
      && Keys(r.value.accounts) == [payer, owner, mint, tokenHolder, SPL_TOKEN_ID, RENT_SYSVAR_ID]
      && SignerFlags(r.value.accounts) == [true, false, false, false, false, false]
      && WritableFlags(r.value.accounts) == [true, false, true, true, false, false]
  {
    match Encode(Mint2(name, url))
    case None => None
    case Some(data) =>
      EncodeDecode(Mint2(name, url));
      Some(Instruction(programId, Mint2AccountMetas(payer, owner, mint, tokenHolder), data))
  }
}

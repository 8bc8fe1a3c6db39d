/** Royalty configurations: validation of the rate and its recipients, the account that holds
    a configuration and the instructions that create and update it, the account's size, and the
    grouping of per-recipient payouts by recipient key. */
module Royalty {
  import opened Common
  import opened RoyaltyMath

  const MAX_ROYALTY_BASIS_POINTS: nat := 2500
  const MAX_ROYALTY_RECIPIENTS: nat := 5

  datatype RecipientType = Artist | Platform | Collaborator | Other

  datatype RoyaltyRecipient = RoyaltyRecipient(recipient: Pubkey, basisPoints: u16, recipientType: RecipientType)

  // ---------------------------------------------------------------- validation

  /** The mathematical sum of the recipients' basis points. */
  function SumBasisPoints(recipients: seq<RoyaltyRecipient>): nat
  {
    if recipients == [] then 0
    else SumBasisPoints(recipients[..|recipients| - 1]) + recipients[|recipients| - 1].basisPoints
  }

  /** `recipients.iter().map(..).sum()` into a `u16`: a left fold whose additions panic on
      overflow. It fails exactly when the true sum does not fit in 16 bits. */
  function CheckedSumBasisPoints(recipients: seq<RoyaltyRecipient>): (r: Result<u16>)
    ensures r.Ok? <==> SumBasisPoints(recipients) <= U16_MAX
    ensures r.Ok? ==> r.value == SumBasisPoints(recipients)
    ensures r.Err? ==> r.error == Panic
  {
    if recipients == [] then Ok(0)
    else
      var sum :- CheckedSumBasisPoints(recipients[..|recipients| - 1]);
      var next := sum + recipients[|recipients| - 1].basisPoints;
      if next > U16_MAX then Err(Panic) else Ok(next)
  }

  /** The condition under which a configuration is accepted. */
  predicate ValidRoyaltyParams(totalBasisPoints: u16, recipients: seq<RoyaltyRecipient>)
  {
    && totalBasisPoints <= MAX_ROYALTY_BASIS_POINTS
    && |recipients| <= MAX_ROYALTY_RECIPIENTS
    && SumBasisPoints(recipients) == totalBasisPoints
  }

  /** The three `require!` checks shared by `create_royalty_config` and
      `update_royalty_config`, in their order. */
  function ValidateRoyaltyParams(totalBasisPoints: u16, recipients: seq<RoyaltyRecipient>): (r: Outcome)
    ensures r.Pass? <==> ValidRoyaltyParams(totalBasisPoints, recipients)
    ensures r == Fail(RoyaltyBasisPointsExceedMax) <==> totalBasisPoints > MAX_ROYALTY_BASIS_POINTS
    ensures r == Fail(TooManyRoyaltyRecipients)
            <==> totalBasisPoints <= MAX_ROYALTY_BASIS_POINTS && |recipients| > MAX_ROYALTY_RECIPIENTS
    ensures r == Fail(Panic)
            <==> totalBasisPoints <= MAX_ROYALTY_BASIS_POINTS && |recipients| <= MAX_ROYALTY_RECIPIENTS
                 && SumBasisPoints(recipients) > U16_MAX
    ensures r == Fail(RoyaltyBasisPointsMismatch)
            <==> totalBasisPoints <= MAX_ROYALTY_BASIS_POINTS && |recipients| <= MAX_ROYALTY_RECIPIENTS
                 && SumBasisPoints(recipients) <= U16_MAX && SumBasisPoints(recipients) != totalBasisPoints
  {
    if totalBasisPoints > MAX_ROYALTY_BASIS_POINTS then Fail(RoyaltyBasisPointsExceedMax)
    else if |recipients| > MAX_ROYALTY_RECIPIENTS then Fail(TooManyRoyaltyRecipients)
    else
      match CheckedSumBasisPoints(recipients)
      case Err(e) => Fail(e)
      case Ok(sum) => if sum == totalBasisPoints then Pass else Fail(RoyaltyBasisPointsMismatch)
  }

  /** A recipient's rate never exceeds the sum it is part of. */
  lemma {:induction false} RecipientWithinSum(recipients: seq<RoyaltyRecipient>, i: nat)
    requires i < |recipients|
    ensures recipients[i].basisPoints <= SumBasisPoints(recipients)
  {
    if i < |recipients| - 1 {
      RecipientWithinSum(recipients[..|recipients| - 1], i);
    }
  }

  // ---------------------------------------------------------------- account size

  /** `get_royalty_config_size`: the bytes allocated for a configuration with this many
      recipients. */
  function GetRoyaltyConfigSize(recipientCount: nat): nat
  {
    8 + 32 + 2 + 4 + recipientCount * (32 + 2 + 1) + 32 + 1 + 1
  }

  /** Borsh size of one recipient: a key, a `u16` and a one-byte enum tag. */
  function RecipientSize(r: RoyaltyRecipient): nat
  {
    32 + 2 + 1
  }

  function RecipientsSize(recipients: seq<RoyaltyRecipient>): nat
  {
    if recipients == [] then 0 else RecipientSize(recipients[0]) + RecipientsSize(recipients[1..])
  }

  /** Bytes of a serialized configuration, field by field: the 8-byte account discriminator,
      the mint, the rate, the vector (a 4-byte length and its elements), the authority, the
      flag and the bump. */
  function SerializedConfigSize(totalBasisPoints: u16, recipients: seq<RoyaltyRecipient>): nat
  {
    8 + 32 + 2 + (4 + RecipientsSize(recipients)) + 32 + 1 + 1
  }

  /** The space allocated is exactly the serialized size of the configuration stored. */
  lemma {:induction false} RoyaltyConfigSizeExact(totalBasisPoints: u16, recipients: seq<RoyaltyRecipient>)
    ensures GetRoyaltyConfigSize(|recipients|) == SerializedConfigSize(totalBasisPoints, recipients)
  {
    RecipientsSizeLinear(recipients);
  }

  lemma {:induction false} RecipientsSizeLinear(recipients: seq<RoyaltyRecipient>)
    ensures RecipientsSize(recipients) == |recipients| * 35
  {
    if recipients != [] {
      RecipientsSizeLinear(recipients[1..]);
    }
  }

  // ---------------------------------------------------------------- the configuration account

  class RoyaltyConfig {
    var mint: Pubkey
    var totalBasisPoints: u16
    var recipients: seq<RoyaltyRecipient>
    var authority: Pubkey
    var isMutable: bool
    var bump: u8
    /** The bytes allocated when the account was created; no instruction reallocates it. */
    var space: nat

    /** Every stored configuration passed validation and fits its account. */
    ghost predicate Valid()
      reads this
    {
      ValidRoyaltyParams(totalBasisPoints, recipients)
      && SerializedConfigSize(totalBasisPoints, recipients) <= space
    }

    constructor (mint: Pubkey, totalBasisPoints: u16, recipients: seq<RoyaltyRecipient>,
                 authority: Pubkey, isMutable: bool, bump: u8)
      ensures this.mint == mint && this.totalBasisPoints == totalBasisPoints
      ensures this.recipients == recipients && this.authority == authority
      ensures this.isMutable == isMutable && this.bump == bump
      ensures space == GetRoyaltyConfigSize(|recipients|)
    {
      this.mint := mint;
      this.totalBasisPoints := totalBasisPoints;
      this.recipients := recipients;
      this.authority := authority;
      this.isMutable := isMutable;
      this.bump := bump;
      this.space := GetRoyaltyConfigSize(|recipients|);
    }
  }

  /** The account constraints of `CreateRoyaltyConfig`: the creator holds the NFT. */
  predicate HoldsNft(authority: Pubkey, nftMint: Pubkey, nftTokenAccount: TokenAccount)
  {
    nftTokenAccount.mint == nftMint && nftTokenAccount.owner == authority && nftTokenAccount.amount > 0
  }

  /** `create_royalty_config`: the account constraints, then validation, then a new account. */
  method CreateRoyaltyConfig(authority: Pubkey, nftMint: Pubkey, nftTokenAccount: TokenAccount,
                             totalBasisPoints: u16, recipients: seq<RoyaltyRecipient>,
                             isMutable: bool, bump: u8)
    returns (r: Result<RoyaltyConfig>)
    ensures r.Ok? <==> HoldsNft(authority, nftMint, nftTokenAccount)
                       && ValidRoyaltyParams(totalBasisPoints, recipients)
    ensures r.Err? ==> if !HoldsNft(authority, nftMint, nftTokenAccount) then r.error == ConstraintRaw
                       else Fail(r.error) == ValidateRoyaltyParams(totalBasisPoints, recipients)
    ensures r.Ok? ==> fresh(r.value) && r.value.Valid()
    ensures r.Ok? ==> && r.value.mint == nftMint && r.value.authority == authority
                      && r.value.totalBasisPoints == totalBasisPoints && r.value.recipients == recipients
                      && r.value.isMutable == isMutable && r.value.bump == bump
                      && r.value.space == GetRoyaltyConfigSize(|recipients|)
  {
    if !HoldsNft(authority, nftMint, nftTokenAccount) {
      return Err(ConstraintRaw);
    }
    var check := ValidateRoyaltyParams(totalBasisPoints, recipients);
    if check.Fail? {
      return Err(check.error);
    }
    var config := new RoyaltyConfig(nftMint, totalBasisPoints, recipients, authority, isMutable, bump);
    RoyaltyConfigSizeExact(totalBasisPoints, recipients);
    return Ok(config);
  }

  /** Every check `update_royalty_config` makes, in the order made: the signer is the
      configuration's authority, an optional token account shows that signer holds the NFT, the
      configuration belongs to the mint, the configuration is mutable, and the new parameters
      are valid; finally the framework writes the configuration back into the `space` bytes
      allocated at creation, which fails when it no longer fits. Every configuration lives at
      the address derived from its own mint (line 1108) and stores that mint (line 407), so a
      configuration of another mint is refused by the `seeds` check, `ConstraintSeeds`, before
      the raw `mint` constraint is reached: its `InvalidRoyaltyConfig` cannot occur. */
  function UpdateRoyaltyConfigCheck(configAuthority: Pubkey, configMint: Pubkey, isMutable: bool, space: nat,
                                    signer: Pubkey, nftMint: Pubkey, nftTokenAccount: Option<TokenAccount>,
                                    totalBasisPoints: u16, recipients: seq<RoyaltyRecipient>): (r: Outcome)
    ensures r.Pass? <==> && signer == configAuthority
                         && (nftTokenAccount.Some? ==> HoldsNft(signer, nftMint, nftTokenAccount.value))
                         && configMint == nftMint && isMutable
                         && ValidRoyaltyParams(totalBasisPoints, recipients)
                         && SerializedConfigSize(totalBasisPoints, recipients) <= space
    ensures signer != configAuthority ==> r == Fail(UnauthorizedRoyaltyUpdate)
    ensures (&& signer == configAuthority && nftTokenAccount.Some?
             && !HoldsNft(signer, nftMint, nftTokenAccount.value))
            ==> r == Fail(ConstraintRaw)
    ensures (&& signer == configAuthority
             && (nftTokenAccount.Some? ==> HoldsNft(signer, nftMint, nftTokenAccount.value))
             && configMint != nftMint)
            ==> r == Fail(ConstraintSeeds)
    ensures (&& signer == configAuthority
             && (nftTokenAccount.Some? ==> HoldsNft(signer, nftMint, nftTokenAccount.value))
             && configMint == nftMint && !isMutable)
            ==> r == Fail(ImmutableRoyaltyConfig)
    ensures (&& signer == configAuthority
             && (nftTokenAccount.Some? ==> HoldsNft(signer, nftMint, nftTokenAccount.value))
             && configMint == nftMint && isMutable && !ValidRoyaltyParams(totalBasisPoints, recipients))
            ==> r == ValidateRoyaltyParams(totalBasisPoints, recipients)
    ensures (&& signer == configAuthority
             && (nftTokenAccount.Some? ==> HoldsNft(signer, nftMint, nftTokenAccount.value))
             && configMint == nftMint && isMutable && ValidRoyaltyParams(totalBasisPoints, recipients)
             && SerializedConfigSize(totalBasisPoints, recipients) > space)
            ==> r == Fail(AccountDidNotSerialize)
  {
    if signer != configAuthority then Fail(UnauthorizedRoyaltyUpdate)
    else if nftTokenAccount.Some? && !HoldsNft(signer, nftMint, nftTokenAccount.value) then Fail(ConstraintRaw)
    else if configMint != nftMint then Fail(ConstraintSeeds)
    else if !isMutable then Fail(ImmutableRoyaltyConfig)
    else
      var check := ValidateRoyaltyParams(totalBasisPoints, recipients);
      if check.Fail? then check
      else if SerializedConfigSize(totalBasisPoints, recipients) > space then Fail(AccountDidNotSerialize)
      else Pass
  }

  /** A configuration fits the space allocated for `count` recipients exactly when it has at
      most `count` of them: an update may shorten the list but never lengthen it past its
      length at creation. */
  lemma UpdateFitsCreationSpace(totalBasisPoints: u16, recipients: seq<RoyaltyRecipient>, count: nat)
    ensures SerializedConfigSize(totalBasisPoints, recipients) <= GetRoyaltyConfigSize(count)
            <==> |recipients| <= count
  {
    RoyaltyConfigSizeExact(totalBasisPoints, recipients);
  }

  /** `update_royalty_config`: on success only the rate and the recipients change; a list
      longer than the one the account was created for is refused when the account is
      written back. */
  method UpdateRoyaltyConfig(config: RoyaltyConfig, signer: Pubkey, nftMint: Pubkey,
                             nftTokenAccount: Option<TokenAccount>,
                             totalBasisPoints: u16, recipients: seq<RoyaltyRecipient>)
    returns (r: Outcome)
    modifies config
    ensures r == UpdateRoyaltyConfigCheck(old(config.authority), old(config.mint), old(config.isMutable),
                                          old(config.space),
                                          signer, nftMint, nftTokenAccount, totalBasisPoints, recipients)
    ensures r.Pass? ==> config.totalBasisPoints == totalBasisPoints && config.recipients == recipients
    ensures r.Fail? ==> config.totalBasisPoints == old(config.totalBasisPoints)
                        && config.recipients == old(config.recipients)
    ensures config.mint == old(config.mint) && config.authority == old(config.authority)
    ensures config.isMutable == old(config.isMutable) && config.bump == old(config.bump)
    ensures config.space == old(config.space)
    ensures old(config.Valid()) ==> config.Valid()
  {
    r := UpdateRoyaltyConfigCheck(config.authority, config.mint, config.isMutable, config.space,
                                  signer, nftMint, nftTokenAccount, totalBasisPoints, recipients);
    if r.Pass? {
      config.totalBasisPoints := totalBasisPoints;
      config.recipients := recipients;
    }
  }

  // ---------------------------------------------------------------- batching payouts

  /** Adds `share` to `key`'s running total; the `+=` panics on overflow. */
  function AddShare(acc: map<Pubkey, u64>, key: Pubkey, share: u64): Result<map<Pubkey, u64>>
  {
    var before := if key in acc then acc[key] else 0;
    if before + share > U64_MAX then Err(Panic) else Ok(acc[key := before + share])
  }

  /** What `batch_royalty_recipients` computes, recipient by recipient in list order: each
      share is computed (and may fail), zero shares are skipped, and the others are added to
      their recipient's entry. The source returns the entries as a vector in hash-map order; the
      model keeps the map. */
  function BatchSpec(recipients: seq<RoyaltyRecipient>, total: u64, totalBasisPoints: u16)
    : Result<map<Pubkey, u64>>
  {
    if recipients == [] then Ok(map[])
    else
      var acc :- BatchSpec(recipients[..|recipients| - 1], total, totalBasisPoints);
      var last := recipients[|recipients| - 1];
      var share :- RecipientShare(total, last.basisPoints, totalBasisPoints);
      if share == 0 then Ok(acc) else AddShare(acc, last.recipient, share)
  }

  /** `batch_royalty_recipients`. */
  method BatchRoyaltyRecipients(recipients: seq<RoyaltyRecipient>, total: u64, totalBasisPoints: u16)
    returns (r: Result<map<Pubkey, u64>>)
    ensures r == BatchSpec(recipients, total, totalBasisPoints)
  {
    var acc: map<Pubkey, u64> := map[];
    for i := 0 to |recipients|
      invariant BatchSpec(recipients[..i], total, totalBasisPoints) == Ok(acc)
    {
      assert recipients[..i + 1][..i] == recipients[..i];
      var share := RecipientShare(total, recipients[i].basisPoints, totalBasisPoints);
      if share.Err? {
        BatchFailureSticks(recipients, i + 1, total, totalBasisPoints);
        return Err(share.error);
      }
      if share.value > 0 {
        var key := recipients[i].recipient;
        var before := if key in acc then acc[key] else 0;
        if before + share.value > U64_MAX {
          BatchFailureSticks(recipients, i + 1, total, totalBasisPoints);
          return Err(Panic);
        }
        acc := acc[key := before + share.value];
      }
    }
    assert recipients[..|recipients|] == recipients;
    return Ok(acc);
  }

  /** Once a prefix fails, the whole list fails with the same error. */
  lemma {:induction false} BatchFailureSticks(recipients: seq<RoyaltyRecipient>, i: nat, total: u64, totalBasisPoints: u16)
    requires i <= |recipients|
    requires BatchSpec(recipients[..i], total, totalBasisPoints).Err?
    ensures BatchSpec(recipients, total, totalBasisPoints) == BatchSpec(recipients[..i], total, totalBasisPoints)
    decreases |recipients| - i
  {
    if i < |recipients| {
      var longer := recipients[..i + 1];
      assert longer[..|longer| - 1] == recipients[..i];
      BatchFailureSticks(recipients, i + 1, total, totalBasisPoints);
    } else {
      assert recipients[..i] == recipients;
    }
  }

  /** The sum of the shares `key` is owed, over every entry naming `key`. */
  function KeyShare(recipients: seq<RoyaltyRecipient>, key: Pubkey, total: nat, totalBasisPoints: nat): nat
    requires totalBasisPoints > 0
  {
    if recipients == [] then 0
    else
      var last := recipients[|recipients| - 1];
      KeyShare(recipients[..|recipients| - 1], key, total, totalBasisPoints)
      + (if last.recipient == key then ShareOf(total, last.basisPoints, totalBasisPoints) else 0)
  }

  /** The sum of every entry's share. */
  function AllShares(recipients: seq<RoyaltyRecipient>, total: nat, totalBasisPoints: nat): nat
    requires totalBasisPoints > 0
  {
    if recipients == [] then 0
    else AllShares(recipients[..|recipients| - 1], total, totalBasisPoints)
         + ShareOf(total, recipients[|recipients| - 1].basisPoints, totalBasisPoints)
  }

  /** Each recipient key appears once, with the sum of its shares; a key whose shares are all
      zero does not appear, so no entry is zero. */
  lemma {:induction false} BatchContents(recipients: seq<RoyaltyRecipient>, total: u64, totalBasisPoints: u16, key: Pubkey)
    requires totalBasisPoints > 0
    requires BatchSpec(recipients, total, totalBasisPoints).Ok?
    ensures var m := BatchSpec(recipients, total, totalBasisPoints).value;
            && (key in m <==> KeyShare(recipients, key, total, totalBasisPoints) > 0)
            && (key in m ==> m[key] == KeyShare(recipients, key, total, totalBasisPoints))
  {
    if recipients != [] {
      BatchContents(recipients[..|recipients| - 1], total, totalBasisPoints, key);
    }
  }

  /** The set of keys named by the recipients. */
  function RecipientKeys(recipients: seq<RoyaltyRecipient>): set<Pubkey>
  {
    if recipients == [] then {}
    else RecipientKeys(recipients[..|recipients| - 1]) + {recipients[|recipients| - 1].recipient}
  }

  /** Only listed recipients are paid. */
  lemma {:induction false} BatchKeys(recipients: seq<RoyaltyRecipient>, total: u64, totalBasisPoints: u16)
    requires BatchSpec(recipients, total, totalBasisPoints).Ok?
    ensures BatchSpec(recipients, total, totalBasisPoints).value.Keys <= RecipientKeys(recipients)
  {
    if recipients != [] {
      BatchKeys(recipients[..|recipients| - 1], total, totalBasisPoints);
    }
  }

  /** One step of the batch: the last entry's share is added to the batch of the others. */
  lemma BatchStep(recipients: seq<RoyaltyRecipient>, total: u64, totalBasisPoints: u16)
    requires totalBasisPoints > 0 && recipients != []
    requires BatchSpec(recipients, total, totalBasisPoints).Ok?
    ensures var init := recipients[..|recipients| - 1];
            var last := recipients[|recipients| - 1];
            var share := ShareOf(total, last.basisPoints, totalBasisPoints);
            && BatchSpec(init, total, totalBasisPoints).Ok?
            && var acc := BatchSpec(init, total, totalBasisPoints).value;
               var before := if last.recipient in acc then acc[last.recipient] else 0;
               BatchSpec(recipients, total, totalBasisPoints).value
               == if share == 0 then acc else acc[last.recipient := before + share]
  {
  }

  /** The entries add up to the sum of all shares. */
  lemma {:induction false} BatchTotal(recipients: seq<RoyaltyRecipient>, total: u64, totalBasisPoints: u16)
    requires totalBasisPoints > 0
    requires BatchSpec(recipients, total, totalBasisPoints).Ok?
    ensures MapSum(BatchSpec(recipients, total, totalBasisPoints).value) == AllShares(recipients, total, totalBasisPoints)
  {
    if recipients != [] {
      var init := recipients[..|recipients| - 1];
      var last := recipients[|recipients| - 1];
      var share := ShareOf(total, last.basisPoints, totalBasisPoints);
      BatchStep(recipients, total, totalBasisPoints);
      BatchTotal(init, total, totalBasisPoints);
      var acc := BatchSpec(init, total, totalBasisPoints).value;
      if share > 0 {
        MapSumAdd(acc, last.recipient, share);
      }
    }
  }

  /** When the rates of the listed recipients add up to at most the whole rate, batching never
      fails, and the shares add up to at most the share of their summed rate, hence to at most
      the total royalty. */
  lemma {:induction false} BatchWithinTotal(recipients: seq<RoyaltyRecipient>, total: u64, totalBasisPoints: u16)
    requires totalBasisPoints > 0 && SumBasisPoints(recipients) <= totalBasisPoints
    ensures BatchSpec(recipients, total, totalBasisPoints).Ok?
    ensures AllShares(recipients, total, totalBasisPoints)
            <= ShareOf(total, SumBasisPoints(recipients), totalBasisPoints) <= total
  {
    RecipientShareBounded(total, SumBasisPoints(recipients), totalBasisPoints);
    if recipients != [] {
      var init := recipients[..|recipients| - 1];
      var last := recipients[|recipients| - 1];
      BatchWithinTotal(init, total, totalBasisPoints);
      RecipientShareBounded(total, last.basisPoints, totalBasisPoints);
      ShareSuperadditive(total, SumBasisPoints(init), last.basisPoints, totalBasisPoints);
      var acc := BatchSpec(init, total, totalBasisPoints).value;
      BatchTotal(init, total, totalBasisPoints);
      if last.recipient in acc {
        MapSumEntry(acc, last.recipient);
      }
    }
  }

  /** For a valid configuration with a non-zero rate, batching its recipients pays out at most
      the total royalty. */
  lemma BatchOfValidConfig(totalBasisPoints: u16, recipients: seq<RoyaltyRecipient>, total: u64)
    requires ValidRoyaltyParams(totalBasisPoints, recipients) && totalBasisPoints > 0
    ensures BatchSpec(recipients, total, totalBasisPoints).Ok?
    ensures MapSum(BatchSpec(recipients, total, totalBasisPoints).value) <= total
  {
    BatchWithinTotal(recipients, total, totalBasisPoints);
    BatchTotal(recipients, total, totalBasisPoints);
  }
}

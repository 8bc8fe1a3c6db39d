/** `process_sale_with_royalties`: a buyer pays a sale price, split between the royalty
    recipients of the NFT's configuration and the seller. The token transfers the instruction
    issues are returned as data; the instruction is all-or-nothing, so an error means no
    transfer happens. */
module Sale {
  import opened Common
  import opened RoyaltyMath
  import opened Royalty

  // ---------------------------------------------------------------- account constraints

  predicate SellerHoldsNft(seller: Pubkey, nftMint: Pubkey, sellerNft: TokenAccount)
  {
    sellerNft.mint == nftMint && sellerNft.owner == seller && sellerNft.amount == 1
  }

  /** The constraints of the `ProcessSale` accounts, checked in declaration order: the seller
      holds the NFT, the configuration belongs to the mint, and the paying account is the
      buyer's. A configuration lives at the address derived from the mint it stores, so one of
      another mint fails the `seeds` check (`ConstraintSeeds`) before the raw `mint`
      constraint, whose `InvalidRoyaltyConfig` cannot occur. */
  function SaleConstraints(buyer: Pubkey, seller: Pubkey, nftMint: Pubkey, sellerNft: TokenAccount,
                           configMint: Pubkey, buyerPayment: TokenAccount): (r: Outcome)
    ensures r.Pass? <==> SellerHoldsNft(seller, nftMint, sellerNft) && configMint == nftMint
                         && buyerPayment.owner == buyer
    ensures r == Fail(ConstraintRaw) <==> !SellerHoldsNft(seller, nftMint, sellerNft)
    ensures r == Fail(ConstraintSeeds) <==> SellerHoldsNft(seller, nftMint, sellerNft) && configMint != nftMint
    ensures r == Fail(InvalidNFTOwnership)
            <==> SellerHoldsNft(seller, nftMint, sellerNft) && configMint == nftMint && buyerPayment.owner != buyer
  {
    if !SellerHoldsNft(seller, nftMint, sellerNft) then Fail(ConstraintRaw)
    else if configMint != nftMint then Fail(ConstraintSeeds)
    else if buyerPayment.owner != buyer then Fail(InvalidNFTOwnership)
    else Pass
  }

  // ---------------------------------------------------------------- the two ways of paying

  /** The instruction pays the seller the whole price in one transfer when the configuration
      has no rate, no recipients, or a royalty that rounds to zero. */
  predicate PaysSellerDirectly(totalBasisPoints: u16, recipients: seq<RoyaltyRecipient>, salePrice: u64)
  {
    totalBasisPoints == 0 || recipients == [] || RoyaltyAmount(salePrice, totalBasisPoints) == Ok(0)
  }

  /** A single token transfer of the whole price from the buyer into the account passed as
      the seller's payment account. The handler checks neither that account nor the balance on
      this path; the token program refuses the transfer when the buyer's balance is short, and
      otherwise when the two accounts hold different mints. */
  function DirectTransfer(buyerPayment: TokenAccount, sellerPayment: TokenAccount, salePrice: u64)
    : (r: Result<seq<TokenOp>>)
    ensures r.Ok? <==> salePrice <= buyerPayment.amount && sellerPayment.mint == buyerPayment.mint
    ensures salePrice > buyerPayment.amount ==> r == Err(TokenInsufficientFunds)
    ensures salePrice <= buyerPayment.amount && sellerPayment.mint != buyerPayment.mint
            ==> r == Err(TokenProgramMintMismatch)
    ensures r.Ok? ==> TransferTotal(r.value) == salePrice
  {
    if buyerPayment.amount < salePrice then Err(TokenInsufficientFunds)
    else if sellerPayment.mint != buyerPayment.mint then Err(TokenProgramMintMismatch)
    else Ok([Transfer(buyerPayment.key, sellerPayment.key, salePrice)])
  }

  // ---------------------------------------------------------------- recipient accounts

  /** `remaining_accounts[i]` as the instruction reads it: `None` when it does not
      deserialize as a token account. */
  type RemainingAccounts = seq<Option<TokenAccount>>

  /** One recipient's account passes the written checks: it is a token account of the
      payment mint. */
  predicate AccountFitsAsWritten(account: Option<TokenAccount>, paymentMint: Pubkey)
  {
    account.Some? && account.value.mint == paymentMint
  }

  /** The pre-validation loop exactly as written: each recipient's account must be a token
      account of the payment mint, and is then filed under the recipient's key; who owns the
      account is never looked at. A later entry for the same key replaces an earlier one. */
  function RecipientAccountsAsWritten(recipients: seq<RoyaltyRecipient>, remaining: RemainingAccounts,
                                      paymentMint: Pubkey): (r: Result<map<Pubkey, TokenAccount>>)
    requires |remaining| >= |recipients|
    ensures r.Ok? <==> forall i :: 0 <= i < |recipients| ==> AccountFitsAsWritten(remaining[i], paymentMint)
    ensures r.Ok? ==> r.value.Keys == RecipientKeys(recipients)
    ensures r.Ok? ==> forall k :: k in r.value ==> r.value[k].mint == paymentMint
    ensures r.Err? ==> r.error in {AccountDidNotDeserialize, TokenMintMismatch}
  {
    if recipients == [] then Ok(map[])
    else
      var i := |recipients| - 1;
      var accounts :- RecipientAccountsAsWritten(recipients[..i], remaining, paymentMint);
      if remaining[i].None? then Err(AccountDidNotDeserialize)
      else if remaining[i].value.mint != paymentMint then Err(TokenMintMismatch)
      else Ok(accounts[recipients[i].recipient := remaining[i].value])
  }

  /** A buyer who passes an account of their own for the recipient is paid the royalty
      themselves: the written loop accepts it. */
  lemma RecipientAccountsAsWrittenIgnoresOwner()
    ensures var buyer, artist, mint := 2, 1, 9;
            var own := TokenAccount(5, mint, buyer, 0, false);
            RecipientAccountsAsWritten([RoyaltyRecipient(artist, 100, Artist)], [Some(own)], mint)
            == Ok(map[artist := own])
            && own.owner != artist
  {
  }

  /** One recipient's account is usable: it is a token account of the payment mint owned by
      the recipient. */
  predicate AccountFits(recipient: RoyaltyRecipient, account: Option<TokenAccount>, paymentMint: Pubkey)
  {
    AccountFitsAsWritten(account, paymentMint) && account.value.owner == recipient.recipient
  }

  /** The pre-validation loop with the missing check added: an account not owned by its
      recipient is `InvalidRecipientAccount`. */
  function RecipientAccounts(recipients: seq<RoyaltyRecipient>, remaining: RemainingAccounts,
                             paymentMint: Pubkey): (r: Result<map<Pubkey, TokenAccount>>)
    requires |remaining| >= |recipients|
    ensures r.Ok? <==> forall i :: 0 <= i < |recipients| ==> AccountFits(recipients[i], remaining[i], paymentMint)
    ensures r.Ok? ==> r.value.Keys == RecipientKeys(recipients)
    ensures r.Ok? ==> forall k :: k in r.value ==> r.value[k].mint == paymentMint && r.value[k].owner == k
    ensures r.Err? ==> r.error in {AccountDidNotDeserialize, TokenMintMismatch, InvalidRecipientAccount}
  {
    if recipients == [] then Ok(map[])
    else
      var i := |recipients| - 1;
      var accounts :- RecipientAccounts(recipients[..i], remaining, paymentMint);
      if remaining[i].None? then Err(AccountDidNotDeserialize)
      else if remaining[i].value.mint != paymentMint then Err(TokenMintMismatch)
      else if remaining[i].value.owner != recipients[i].recipient then Err(InvalidRecipientAccount)
      else Ok(accounts[recipients[i].recipient := remaining[i].value])
  }

  /** The added check only refuses more: whatever the corrected loop accepts, the written one
      accepts with the same accounts; and what only the written one accepts has an account
      that its recipient does not own. */
  lemma {:induction false} RecipientAccountsRefinesAsWritten(recipients: seq<RoyaltyRecipient>,
                                                             remaining: RemainingAccounts, paymentMint: Pubkey)
    requires |remaining| >= |recipients|
    ensures RecipientAccounts(recipients, remaining, paymentMint).Ok? ==>
              RecipientAccountsAsWritten(recipients, remaining, paymentMint)
              == RecipientAccounts(recipients, remaining, paymentMint)
    ensures RecipientAccountsAsWritten(recipients, remaining, paymentMint).Ok?
            && RecipientAccounts(recipients, remaining, paymentMint).Err? ==>
              exists i :: 0 <= i < |recipients| && remaining[i].Some?
                          && remaining[i].value.owner != recipients[i].recipient
  {
    if recipients != [] && RecipientAccounts(recipients, remaining, paymentMint).Ok? {
      RecipientAccountsRefinesAsWritten(recipients[..|recipients| - 1], remaining, paymentMint);
    }
    if RecipientAccountsAsWritten(recipients, remaining, paymentMint).Ok?
       && RecipientAccounts(recipients, remaining, paymentMint).Err? {
      var i :| 0 <= i < |recipients| && !AccountFits(recipients[i], remaining[i], paymentMint);
      assert AccountFitsAsWritten(remaining[i], paymentMint);
    }
  }

  /** The loop that builds the recipient account map, as written. */
  method BuildRecipientAccounts(recipients: seq<RoyaltyRecipient>, remaining: RemainingAccounts, paymentMint: Pubkey)
    returns (r: Result<map<Pubkey, TokenAccount>>)
    requires |remaining| >= |recipients|
    ensures r == RecipientAccountsAsWritten(recipients, remaining, paymentMint)
  {
    var accounts: map<Pubkey, TokenAccount> := map[];
    for i := 0 to |recipients|
      invariant RecipientAccountsAsWritten(recipients[..i], remaining, paymentMint) == Ok(accounts)
    {
      assert recipients[..i + 1][..i] == recipients[..i];
      var account := remaining[i];
      if account.None? {
        RecipientAccountsFailureSticks(recipients, remaining, paymentMint, i + 1);
        return Err(AccountDidNotDeserialize);
      }
      if account.value.mint != paymentMint {
        RecipientAccountsFailureSticks(recipients, remaining, paymentMint, i + 1);
        return Err(TokenMintMismatch);
      }
      accounts := accounts[recipients[i].recipient := account.value];
    }
    assert recipients[..|recipients|] == recipients;
    return Ok(accounts);
  }

  lemma {:induction false} RecipientAccountsFailureSticks(recipients: seq<RoyaltyRecipient>, remaining: RemainingAccounts,
                                                          paymentMint: Pubkey, i: nat)
    requires i <= |recipients| <= |remaining|
    requires RecipientAccountsAsWritten(recipients[..i], remaining, paymentMint).Err?
    ensures RecipientAccountsAsWritten(recipients, remaining, paymentMint)
            == RecipientAccountsAsWritten(recipients[..i], remaining, paymentMint)
    decreases |recipients| - i
  {
    if i < |recipients| {
      var longer := recipients[..i + 1];
      assert longer[..|longer| - 1] == recipients[..i];
      RecipientAccountsFailureSticks(recipients, remaining, paymentMint, i + 1);
    } else {
      assert recipients[..i] == recipients;
    }
  }

  // ---------------------------------------------------------------- paying the recipients

  /** The total the recipients are owed, summed with `checked_add`: it fails exactly when the
      sum does not fit in 64 bits. The batch is visited in an unspecified order. */
  method SumPayouts(batch: map<Pubkey, u64>) returns (r: Result<u64>)
    ensures r.Ok? <==> MapSum(batch) <= U64_MAX
    ensures r.Ok? ==> r.value == MapSum(batch)
    ensures r.Err? ==> r.error == ProgramArithmeticOverflow
  {
    var paid: u64 := 0;
    var rest := batch;
    while rest != map[]
      invariant paid + MapSum(rest) == MapSum(batch)
      decreases |rest|
    {
      var k :| k in rest;
      MapSumRemove(rest, k);
      RemoveKeyShrinks(rest, k);
      if paid + rest[k] > U64_MAX {
        return Err(ProgramArithmeticOverflow);
      }
      paid := paid + rest[k];
      rest := rest - {k};
    }
    return Ok(paid);
  }

  /** The transfers to the recipients, one per batch entry in the order `order`. */
  function PayoutOps(order: seq<Pubkey>, batch: map<Pubkey, u64>, accounts: map<Pubkey, TokenAccount>,
                     from: Pubkey): (ops: seq<TokenOp>)
    requires forall k :: k in order ==> k in batch && k in accounts
    ensures |ops| == |order|
    ensures forall i :: 0 <= i < |ops| ==> ops[i] == Transfer(from, accounts[order[i]].key, batch[order[i]])
  {
    if order == [] then []
    else PayoutOps(order[..|order| - 1], batch, accounts, from)
         + [Transfer(from, accounts[order[|order| - 1]].key, batch[order[|order| - 1]])]
  }

  predicate Distinct(order: seq<Pubkey>)
  {
    forall i, j :: 0 <= i < j < |order| ==> order[i] != order[j]
  }

  /** The state of the transfer loop: `order` lists the keys paid so far, once each, `rest`
      holds the entries still to pay, and `ops` is the transfers issued, which add up to what
      has left the batch. */
  ghost predicate PayingInvariant(batch: map<Pubkey, u64>, accounts: map<Pubkey, TokenAccount>, from: Pubkey,
                                  rest: map<Pubkey, u64>, order: seq<Pubkey>, ops: seq<TokenOp>)
  {
    && (forall k :: k in rest ==> k in batch && rest[k] == batch[k])
    && (forall k :: k in batch ==> (k in rest <==> k !in order))
    && (forall k :: k in order ==> k in batch && k in accounts)
    && Distinct(order)
    && ops == PayoutOps(order, batch, accounts, from)
    && TransferTotal(ops) + MapSum(rest) == MapSum(batch)
  }

  lemma PayingStep(batch: map<Pubkey, u64>, accounts: map<Pubkey, TokenAccount>, from: Pubkey,
                   rest: map<Pubkey, u64>, order: seq<Pubkey>, ops: seq<TokenOp>, k: Pubkey)
    requires PayingInvariant(batch, accounts, from, rest, order, ops)
    requires k in rest && k in accounts
    ensures |rest - {k}| < |rest|
    ensures PayingInvariant(batch, accounts, from, rest - {k}, order + [k],
                            ops + [Transfer(from, accounts[k].key, rest[k])])
  {
    var op := Transfer(from, accounts[k].key, rest[k]);
    var order', ops' := order + [k], ops + [op];
    RemoveKeyShrinks(rest, k);
    assert k !in order;
    assert forall j :: j in order' <==> j in order || j == k;
    assert Distinct(order') by {
      forall i, j | 0 <= i < j < |order'|
        ensures order'[i] != order'[j]
      {
        if j == |order| {
          assert order'[i] == order[i];
        }
      }
    }
    assert ops' == PayoutOps(order', batch, accounts, from) by {
      assert order'[..|order'| - 1] == order;
    }
    MapSumRemove(rest, k);
    TransferTotalAppend(ops, [op]);
    assert [op][..0] == [];
  }

  /** The transfer loop: every batch entry is paid to the account filed under its key; a key
      with no account is `InvalidRecipientAccount`. The entries are visited in an unspecified
      order, returned as `order`. */
  method PayRecipients(batch: map<Pubkey, u64>, accounts: map<Pubkey, TokenAccount>, from: Pubkey)
    returns (r: Result<seq<TokenOp>>, ghost order: seq<Pubkey>)
    ensures r.Ok? <==> batch.Keys <= accounts.Keys
    ensures r.Err? ==> r.error == InvalidRecipientAccount
    ensures r.Ok? ==> && Distinct(order) && (forall k :: k in order <==> k in batch)
                      && r.value == PayoutOps(order, batch, accounts, from)
    ensures r.Ok? ==> TransferTotal(r.value) == MapSum(batch)
  {
    var ops: seq<TokenOp> := [];
    var rest := batch;
    order := [];
    while rest != map[]
      invariant PayingInvariant(batch, accounts, from, rest, order, ops)
      decreases |rest|
    {
      var k :| k in rest;
      if k !in accounts {
        return Err(InvalidRecipientAccount), order;
      }
      PayingStep(batch, accounts, from, rest, order, ops, k);
      ops := ops + [Transfer(from, accounts[k].key, rest[k])];
      order := order + [k];
      rest := rest - {k};
    }
    return Ok(ops), order;
  }

  // ---------------------------------------------------------------- the instruction

  /** Everything the royalty path asks of the accounts it is given, beyond the account
      constraints: the buyer can pay the price, there is an account for every recipient, each
      of the payment mint, and the account passed as the seller's payment account has the buyer's
      mint. */
  predicate RoyaltyPathReady(recipients: seq<RoyaltyRecipient>, buyerPayment: TokenAccount,
                             sellerPayment: TokenAccount, remaining: RemainingAccounts, salePrice: u64)
  {
    && salePrice <= buyerPayment.amount
    && |remaining| >= |recipients|
    && sellerPayment.mint == buyerPayment.mint
    && forall i :: 0 <= i < |recipients| ==> AccountFitsAsWritten(remaining[i], buyerPayment.mint)
  }

  /** The transfers of the royalty path: each key of `batch` is paid its entry, once, into
      the account filed under it; then the account passed as the seller's payment account
      receives what is left of the price, unless nothing is. */
  ghost predicate SplitPays(ops: seq<TokenOp>, order: seq<Pubkey>, batch: map<Pubkey, u64>,
                            accounts: map<Pubkey, TokenAccount>, from: Pubkey, sellerKey: Pubkey, salePrice: u64)
  {
    && Distinct(order) && (forall k :: k in order <==> k in batch)
    && (forall k :: k in order ==> k in accounts)
    && |order| <= |ops|
    && ops[..|order|] == PayoutOps(order, batch, accounts, from)
    && ops[|order|..] == if MapSum(batch) < salePrice
                         then [Transfer(from, sellerKey, salePrice - MapSum(batch))]
                         else []
  }

  /** Every recipient transfer is from the payer. */
  lemma PayoutOpsFrom(order: seq<Pubkey>, batch: map<Pubkey, u64>, accounts: map<Pubkey, TokenAccount>,
                      from: Pubkey)
    requires forall k :: k in order ==> k in batch && k in accounts
    ensures forall op :: op in PayoutOps(order, batch, accounts, from) ==> op.Transfer? && op.from == from
  {
    var ops := PayoutOps(order, batch, accounts, from);
    forall op | op in ops
      ensures op.Transfer? && op.from == from
    {
      var i :| 0 <= i < |ops| && ops[i] == op;
    }
  }

  /** The recipients' transfers followed by the seller's remainder pay out as `SplitPays`
      describes, add up to the price, and all come from the payer. */
  lemma SplitAssembled(ops: seq<TokenOp>, order: seq<Pubkey>, batch: map<Pubkey, u64>,
                       accounts: map<Pubkey, TokenAccount>, from: Pubkey, sellerKey: Pubkey, salePrice: u64,
                       tail: seq<TokenOp>)
    requires Distinct(order) && (forall k :: k in order <==> k in batch)
    requires forall k :: k in order ==> k in accounts
    requires ops == PayoutOps(order, batch, accounts, from)
    requires TransferTotal(ops) == MapSum(batch) <= salePrice
    requires tail == if MapSum(batch) < salePrice then [Transfer(from, sellerKey, salePrice - MapSum(batch))]
                     else []
    ensures SplitPays(ops + tail, order, batch, accounts, from, sellerKey, salePrice)
    ensures TransferTotal(ops + tail) == salePrice
    ensures forall op :: op in ops + tail ==> op.Transfer? && op.from == from
  {
    TransferTotalAppend(ops, tail);
    assert |ops| == |order|;
    assert (ops + tail)[..|order|] == ops;
    assert (ops + tail)[|order|..] == tail;
    PayoutOpsFrom(order, batch, accounts, from);
  }

  /** With the owner check added, each recipient's share lands in an account that recipient
      owns: wherever the corrected loop accepts the accounts, the transfers the written path
      issues go to the recipients' own accounts. */
  lemma RoyaltiesReachOwnersWhenChecked(ops: seq<TokenOp>, order: seq<Pubkey>, batch: map<Pubkey, u64>,
                                        recipients: seq<RoyaltyRecipient>, remaining: RemainingAccounts,
                                        paymentMint: Pubkey, from: Pubkey, sellerKey: Pubkey, salePrice: u64)
    requires |remaining| >= |recipients|
    requires RecipientAccounts(recipients, remaining, paymentMint).Ok?
    requires RecipientAccountsAsWritten(recipients, remaining, paymentMint).Ok?
    requires SplitPays(ops, order, batch, RecipientAccountsAsWritten(recipients, remaining, paymentMint).value,
                       from, sellerKey, salePrice)
    ensures var accounts := RecipientAccountsAsWritten(recipients, remaining, paymentMint).value;
            forall i :: 0 <= i < |order| ==>
              ops[i] == Transfer(from, accounts[order[i]].key, batch[order[i]]) && accounts[order[i]].owner == order[i]
  {
    RecipientAccountsRefinesAsWritten(recipients, remaining, paymentMint);
    var accounts := RecipientAccountsAsWritten(recipients, remaining, paymentMint).value;
    forall i | 0 <= i < |order|
      ensures ops[i] == Transfer(from, accounts[order[i]].key, batch[order[i]])
    {
      assert ops[i] == ops[..|order|][i];
    }
  }

  /** The royalty path of `process_sale_with_royalties`, once a non-zero royalty is known:
      the buyer's balance, the number of accounts and the seller payment account's mint are checked, the
      recipient accounts validated, the shares batched and summed, and the transfers issued. */
  method RoyaltySplit(recipients: seq<RoyaltyRecipient>, totalBasisPoints: u16, royalty: u64,
                      buyerPayment: TokenAccount, sellerPayment: TokenAccount,
                      remaining: RemainingAccounts, salePrice: u64)
    returns (r: Result<seq<TokenOp>>, ghost order: seq<Pubkey>)
    ensures r.Ok? ==> forall op :: op in r.value ==> op.Transfer? && op.from == buyerPayment.key
    ensures r.Ok? ==> TransferTotal(r.value) == salePrice <= buyerPayment.amount
    ensures r.Ok? ==> && RoyaltyPathReady(recipients, buyerPayment, sellerPayment, remaining, salePrice)
                      && BatchSpec(recipients, royalty, totalBasisPoints).Ok?
                      && SplitPays(r.value, order, BatchSpec(recipients, royalty, totalBasisPoints).value,
                                   RecipientAccountsAsWritten(recipients, remaining, buyerPayment.mint).value,
                                   buyerPayment.key, sellerPayment.key, salePrice)
    ensures ValidRoyaltyParams(totalBasisPoints, recipients) && totalBasisPoints > 0 && royalty <= salePrice
            ==> (r.Ok? <==> RoyaltyPathReady(recipients, buyerPayment, sellerPayment, remaining, salePrice))
  {
    order := [];
    if buyerPayment.amount < salePrice {
      return Err(InsufficientFunds), order;
    }
    var paymentMint := buyerPayment.mint;
    if |remaining| < |recipients| {
      return Err(MissingExpectedAccount), order;
    }
    if sellerPayment.mint != paymentMint {
      return Err(TokenMintMismatch), order;
    }
    var accountsResult := BuildRecipientAccounts(recipients, remaining, paymentMint);
    if accountsResult.Err? {
      return Err(accountsResult.error), order;
    }
    var accounts := accountsResult.value;
    var batchResult := BatchRoyaltyRecipients(recipients, royalty, totalBasisPoints);
    if ValidRoyaltyParams(totalBasisPoints, recipients) && totalBasisPoints > 0 {
      BatchOfValidConfig(totalBasisPoints, recipients, royalty);
    }
    if batchResult.Err? {
      return Err(batchResult.error), order;
    }
    var batch := batchResult.value;
    BatchKeys(recipients, royalty, totalBasisPoints);
    var paidResult := SumPayouts(batch);
    if paidResult.Err? {
      return Err(paidResult.error), order;
    }
    var paid := paidResult.value;
    if paid > salePrice {
      return Err(RoyaltyBasisPointsExceedMax), order;
    }
    var sellerAmount := salePrice - paid;
    var payouts;
    payouts, order := PayRecipients(batch, accounts, buyerPayment.key);
    // Every batched key is a recipient's key and so has an account: the transfer loop's
    // `InvalidRecipientAccount` branch cannot be taken here.
    assert payouts.Ok?;
    var ops := payouts.value;
    var tail := if sellerAmount > 0 then [Transfer(buyerPayment.key, sellerPayment.key, sellerAmount)] else [];
    SplitAssembled(ops, order, batch, accounts, buyerPayment.key, sellerPayment.key, salePrice, tail);
    return Ok(ops + tail), order;
  }

  /** `process_sale_with_royalties`. The transfers it issues all come from the buyer's account
      and add up to exactly the sale price, which the buyer's balance covers. Without royalties
      the account passed as the seller's payment account receives the whole price in one
      transfer; otherwise each recipient key is paid
      its batched share into the account passed for it, and the account passed as the seller's
      payment account receives the rest, when that is non-zero.
      For a configuration that passed validation the instruction fails only when the accounts
      are wrong or the buyer cannot pay. */
  method ProcessSaleWithRoyalties(config: RoyaltyConfig, buyer: Pubkey, seller: Pubkey, nftMint: Pubkey,
                                  sellerNft: TokenAccount, buyerPayment: TokenAccount,
                                  sellerPayment: TokenAccount, remaining: RemainingAccounts, salePrice: u64)
    returns (r: Result<seq<TokenOp>>, ghost order: seq<Pubkey>)
    ensures var c := SaleConstraints(buyer, seller, nftMint, sellerNft, config.mint, buyerPayment);
            c.Fail? ==> r == Err(c.error)
    ensures SaleConstraints(buyer, seller, nftMint, sellerNft, config.mint, buyerPayment).Pass?
            && PaysSellerDirectly(config.totalBasisPoints, config.recipients, salePrice)
            ==> r == DirectTransfer(buyerPayment, sellerPayment, salePrice)
    ensures r.Ok? ==> forall op :: op in r.value ==> op.Transfer? && op.from == buyerPayment.key
    ensures r.Ok? ==> TransferTotal(r.value) == salePrice <= buyerPayment.amount
    ensures r.Ok? && !PaysSellerDirectly(config.totalBasisPoints, config.recipients, salePrice) ==>
            && RoyaltyPathReady(config.recipients, buyerPayment, sellerPayment, remaining, salePrice)
            && RoyaltyAmount(salePrice, config.totalBasisPoints).Ok?
            && var royalty := RoyaltyAmount(salePrice, config.totalBasisPoints).value;
               && BatchSpec(config.recipients, royalty, config.totalBasisPoints).Ok?
               && SplitPays(r.value, order, BatchSpec(config.recipients, royalty, config.totalBasisPoints).value,
                            RecipientAccountsAsWritten(config.recipients, remaining, buyerPayment.mint).value,
                            buyerPayment.key, sellerPayment.key, salePrice)
    ensures config.Valid() && SaleConstraints(buyer, seller, nftMint, sellerNft, config.mint, buyerPayment).Pass?
            ==> (r.Ok? <==> if PaysSellerDirectly(config.totalBasisPoints, config.recipients, salePrice)
                            then salePrice <= buyerPayment.amount && sellerPayment.mint == buyerPayment.mint
                            else RoyaltyPathReady(config.recipients, buyerPayment, sellerPayment, remaining, salePrice))
  {
    order := [];
    var constraints := SaleConstraints(buyer, seller, nftMint, sellerNft, config.mint, buyerPayment);
    if constraints.Fail? {
      return Err(constraints.error), order;
    }
    var totalBasisPoints, recipients := config.totalBasisPoints, config.recipients;
    if totalBasisPoints == 0 || recipients == [] {
      return DirectTransfer(buyerPayment, sellerPayment, salePrice), order;
    }
    var royaltyResult := RoyaltyAmount(salePrice, totalBasisPoints);
    if config.Valid() {
      RoyaltyAmountBounded(salePrice, totalBasisPoints);
    }
    if royaltyResult.Err? {
      return Err(royaltyResult.error), order;
    }
    var royalty := royaltyResult.value;
    if royalty == 0 {
      return DirectTransfer(buyerPayment, sellerPayment, salePrice), order;
    }
    r, order := RoyaltySplit(recipients, totalBasisPoints, royalty, buyerPayment, sellerPayment, remaining, salePrice);
  }
}

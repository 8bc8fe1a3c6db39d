/** The NFT auction: an exhibitor escrows an NFT, bidders escrow ever higher prices in
    fungible tokens, and the auction is cancelled (no bids) or closed (after its end). The
    escrow accounts are owned by the program address derived from `b"escrow"`; token moves are
    returned as data. */
module Auction {
  import opened Common

  /** Stands for the program address derived from the seed `b"escrow"`, which owns every
      escrowed token account. */
  const ESCROW_PDA: Pubkey := 0x657363726f77

  /** The `Auction` account's fields. While nobody has bid, the exhibitor is recorded as the
      highest bidder and their receiving account as the bidder's accounts. */
  datatype AuctionData = AuctionData(
    exhibitor: Pubkey,
    exhibitingNftTemp: Pubkey,
    exhibitorFtReceiving: Pubkey,
    price: u64,
    endAt: i64,
    highestBidder: Pubkey,
    highestBidderFtTemp: Pubkey,
    highestBidderFtReturning: Pubkey)

  /** The new state of the escrow and the token calls made on the way. */
  datatype Step = Step(auction: AuctionData, ops: seq<TokenOp>)

  // ---------------------------------------------------------------- exhibit

  /** `clock.unix_timestamp.add(auction_duration_sec as i64)`: the duration is reinterpreted as
      a signed 64-bit value, and the addition panics when it leaves the `i64` range. */
  function EndAt(now: i64, duration: u64): (r: Result<i64>)
    ensures r.Ok? <==> I64_MIN <= now + U64AsI64(duration) <= I64_MAX
    ensures r.Ok? && duration <= I64_MAX ==> r.value == now + duration && r.value >= now
    ensures r.Err? ==> r.error == Panic
  {
    var end := now + U64AsI64(duration);
    if end < I64_MIN || end > I64_MAX then Err(Panic) else Ok(end)
  }

  /** A duration of 2^63 seconds or more is read as negative: the auction ends before it
      starts, so no bid can ever be placed. */
  lemma HugeDurationEndsInPast(now: i64, duration: u64)
    requires duration > I64_MAX && EndAt(now, duration).Ok?
    ensures EndAt(now, duration).value < now
  {
  }

  /** The accounts of `exhibit`. */
  datatype ExhibitAccounts = ExhibitAccounts(
    exhibitor: Pubkey,
    nftToken: TokenAccount,
    nftTemp: Pubkey,
    ftReceiving: Pubkey)

  /** `exhibit`: the exhibitor's token account must hold exactly one NFT; the escrow records
      the exhibitor as highest bidder at the initial price, and the NFT moves into a temporary
      account handed to the escrow address. */
  function ExhibitSpec(accounts: ExhibitAccounts, initialPrice: u64, duration: u64, now: i64): (r: Result<Step>)
    ensures r.Ok? <==> accounts.nftToken.amount == 1 && EndAt(now, duration).Ok?
    ensures r.Ok? ==> && r.value.auction.highestBidder == accounts.exhibitor == r.value.auction.exhibitor
                      && r.value.auction.price == initialPrice
                      && r.value.auction.endAt == EndAt(now, duration).value
                      && r.value.auction.exhibitingNftTemp == accounts.nftTemp
                      && r.value.auction.exhibitorFtReceiving == accounts.ftReceiving
                      && r.value.auction.highestBidderFtTemp == accounts.ftReceiving
                      && r.value.auction.highestBidderFtReturning == accounts.ftReceiving
                      && r.value.ops == [SetOwner(accounts.nftTemp, ESCROW_PDA),
                                         Transfer(accounts.nftToken.key, accounts.nftTemp, 1)]
    ensures r.Err? && accounts.nftToken.amount != 1 ==> r.error == ConstraintRaw
  {
    if accounts.nftToken.amount != 1 then Err(ConstraintRaw)
    else
      var endAt :- EndAt(now, duration);
      Ok(Step(AuctionData(accounts.exhibitor, accounts.nftTemp, accounts.ftReceiving, initialPrice, endAt,
                          accounts.exhibitor, accounts.ftReceiving, accounts.ftReceiving),
              [SetOwner(accounts.nftTemp, ESCROW_PDA), Transfer(accounts.nftToken.key, accounts.nftTemp, 1)]))
  }

  // ---------------------------------------------------------------- bid

  /** The accounts of `bid`. */
  datatype BidAccounts = BidAccounts(
    bidder: Pubkey,
    bidderFtTemp: Pubkey,
    bidderFt: TokenAccount,
    highestBidder: Pubkey,
    highestBidderFtTemp: Pubkey,
    highestBidderFtReturning: Pubkey)

  /** The `Bid` account constraints exactly as written: the bidder can pay, is not the
      current highest bidder, names the escrow's current bidder accounts, offers more than the
      current price, and the auction has not ended. */
  predicate BidConstraintsAsWritten(a: AuctionData, accounts: BidAccounts, price: u64, now: i64)
  {
    && accounts.bidderFt.amount >= price
    && accounts.highestBidder != accounts.bidder
    && a.highestBidder == accounts.highestBidder
    && a.highestBidderFtTemp == accounts.highestBidderFtTemp
    && a.highestBidderFtReturning == accounts.highestBidderFtReturning
    && a.price < price
    && a.endAt > now
  }

  /** The handler of `bid`, once the constraints hold: the previous bid is refunded and its
      temporary account closed, unless the highest bidder is still the exhibitor, that is,
      unless nobody has bid; then the new bid is escrowed and recorded. */
  function BidBody(a: AuctionData, accounts: BidAccounts, price: u64): (s: Step)
    ensures s.auction == a.(price := price, highestBidder := accounts.bidder,
                            highestBidderFtTemp := accounts.bidderFtTemp,
                            highestBidderFtReturning := accounts.bidderFt.key)
  {
    var refund := if a.highestBidder != a.exhibitor
                  then [Transfer(accounts.highestBidderFtTemp, accounts.highestBidderFtReturning, a.price),
                        CloseAccount(accounts.highestBidderFtTemp, accounts.highestBidder)]
                  else [];
    Step(a.(price := price, highestBidder := accounts.bidder,
            highestBidderFtTemp := accounts.bidderFtTemp, highestBidderFtReturning := accounts.bidderFt.key),
         refund + [SetOwner(accounts.bidderFtTemp, ESCROW_PDA), Transfer(accounts.bidderFt.key, accounts.bidderFtTemp, price)])
  }

  /** `bid` exactly as written. */
  function BidAsWritten(a: AuctionData, accounts: BidAccounts, price: u64, now: i64): (r: Result<Step>)
    ensures r.Ok? <==> BidConstraintsAsWritten(a, accounts, price, now)
    ensures r.Err? ==> r.error == ConstraintRaw
    ensures r.Ok? ==> && r.value.auction.price == price > a.price
                      && now < a.endAt
                      && r.value.auction.highestBidder == accounts.bidder
                      && r.value.auction.exhibitor == a.exhibitor && r.value.auction.endAt == a.endAt
                      && r.value.auction.exhibitingNftTemp == a.exhibitingNftTemp
                      && r.value.auction.exhibitorFtReceiving == a.exhibitorFtReceiving
  {
    if BidConstraintsAsWritten(a, accounts, price, now) then Ok(BidBody(a, accounts, price)) else Err(ConstraintRaw)
  }

  /** Once someone else leads, the exhibitor may bid on their own auction: the written
      constraints let it through, and the exhibitor becomes the highest bidder again. */
  lemma BidAsWrittenLetsExhibitorBid()
    ensures var exhibitor, other := 1, 2;
            var a := AuctionData(exhibitor, 10, 11, 50, 100, other, 20, 21);
            var accounts := BidAccounts(exhibitor, 30, TokenAccount(31, 0, exhibitor, 80, false), other, 20, 21);
            var r := BidAsWritten(a, accounts, 60, 0);
            r.Ok? && r.value.auction.highestBidder == r.value.auction.exhibitor
  {
  }

  /** The refund rule then goes wrong: the next bid treats the auction as having no bids and
      refunds nothing, though the exhibitor's 60 tokens are escrowed; and cancel is allowed. */
  lemma BidAsWrittenLosesExhibitorDeposit()
    ensures var exhibitor, other, third := 1, 2, 3;
            var a := AuctionData(exhibitor, 10, 11, 60, 100, exhibitor, 30, 31);
            var accounts := BidAccounts(third, 40, TokenAccount(41, 0, third, 90, false), exhibitor, 30, 31);
            var r := BidAsWritten(a, accounts, 70, 0);
            && r.Ok?
            && (forall op :: op in r.value.ops ==> op.Transfer? ==> op.from != 30)
            && CancelSpec(a, CancelAccounts(exhibitor, 12, TokenAccount(10, 0, ESCROW_PDA, 1, false))).Ok?
  {
    var r := BidAsWritten(AuctionData(1, 10, 11, 60, 100, 1, 30, 31),
                          BidAccounts(3, 40, TokenAccount(41, 0, 3, 90, false), 1, 30, 31), 70, 0);
    assert r.value.ops == [SetOwner(40, ESCROW_PDA), Transfer(41, 40, 70)];
  }

  /** The `Bid` constraints with the exhibitor excluded from bidding, so that "the highest
      bidder is the exhibitor" keeps meaning "nobody has bid". */
  predicate BidConstraints(a: AuctionData, accounts: BidAccounts, price: u64, now: i64)
  {
    BidConstraintsAsWritten(a, accounts, price, now) && accounts.bidder != a.exhibitor
  }

  /** `bid` with the exhibitor excluded. A bid is accepted only above the current price and
      before the end; afterwards the price and the highest bidder are the new bid's. */
  function BidSpec(a: AuctionData, accounts: BidAccounts, price: u64, now: i64): (r: Result<Step>)
    ensures r.Ok? <==> BidConstraints(a, accounts, price, now)
    ensures r.Err? ==> r.error == ConstraintRaw
    ensures r.Ok? ==> && r.value.auction.price == price > a.price
                      && now < a.endAt
                      && r.value.auction.highestBidder == accounts.bidder != a.exhibitor
                      && r.value.auction.exhibitor == a.exhibitor && r.value.auction.endAt == a.endAt
                      && r.value.auction.exhibitingNftTemp == a.exhibitingNftTemp
                      && r.value.auction.exhibitorFtReceiving == a.exhibitorFtReceiving
  {
    if BidConstraints(a, accounts, price, now) then Ok(BidBody(a, accounts, price)) else Err(ConstraintRaw)
  }

  /** The two versions differ only on a bid by the exhibitor, which the written constraints
      accept; everywhere else they do the same. */
  lemma BidSpecRefinesAsWritten(a: AuctionData, accounts: BidAccounts, price: u64, now: i64)
    ensures accounts.bidder != a.exhibitor ==> BidAsWritten(a, accounts, price, now) == BidSpec(a, accounts, price, now)
    ensures accounts.bidder == a.exhibitor ==> BidSpec(a, accounts, price, now) == Err(ConstraintRaw)
  {
  }

  /** The previous bidder gets back exactly their escrowed price, from their temporary account
      into their returning account, precisely when somebody had bid; the new price is then
      escrowed from the bidder's account. This is the bid the instruction runs, so "somebody had
      bid" is read as the handler reads it: the highest bidder is not the exhibitor. */
  lemma BidRefundsPreviousBidder(a: AuctionData, accounts: BidAccounts, price: u64, now: i64)
    requires BidAsWritten(a, accounts, price, now).Ok?
    ensures var ops := BidAsWritten(a, accounts, price, now).value.ops;
            && (Transfer(a.highestBidderFtTemp, a.highestBidderFtReturning, a.price) in ops
                <==> a.highestBidder != a.exhibitor)
            && ops[|ops| - 1] == Transfer(accounts.bidderFt.key, accounts.bidderFtTemp, price)
            && TransferTotal(ops) == price + (if a.highestBidder != a.exhibitor then a.price else 0)
  {
    var refund := if a.highestBidder != a.exhibitor
                  then [Transfer(accounts.highestBidderFtTemp, accounts.highestBidderFtReturning, a.price),
                        CloseAccount(accounts.highestBidderFtTemp, accounts.highestBidder)]
                  else [];
    var escrow := [SetOwner(accounts.bidderFtTemp, ESCROW_PDA), Transfer(accounts.bidderFt.key, accounts.bidderFtTemp, price)];
    var ops := BidAsWritten(a, accounts, price, now).value.ops;
    assert ops == refund + escrow;
    TransferTotalAppend(refund, escrow);
    assert escrow[..1] == [escrow[0]] && [escrow[0]][..0] == [];
    assert TransferTotal([escrow[0]]) == 0;
    if a.highestBidder != a.exhibitor {
      var back := Transfer(accounts.highestBidderFtTemp, accounts.highestBidderFtReturning, a.price);
      assert refund == [back, CloseAccount(accounts.highestBidderFtTemp, accounts.highestBidder)];
      assert refund[..1] == [back];
      assert [back][..0] == [];
      assert TransferTotal([back]) == a.price;
    } else {
      assert Transfer(a.highestBidderFtTemp, a.highestBidderFtReturning, a.price) !in escrow;
    }
  }

  // ---------------------------------------------------------------- cancel

  /** The accounts of `cancel`. */
  datatype CancelAccounts = CancelAccounts(exhibitor: Pubkey, nftToken: Pubkey, nftTemp: TokenAccount)

  /** `cancel`: only the exhibitor, only while nobody has bid; the NFT goes back to the
      exhibitor and its temporary account is closed (the escrow account is closed too). */
  function CancelSpec(a: AuctionData, accounts: CancelAccounts): (r: Result<seq<TokenOp>>)
    ensures r.Ok? <==> && a.exhibitor == accounts.exhibitor && a.highestBidder == accounts.exhibitor
                       && a.exhibitingNftTemp == accounts.nftTemp.key
    ensures r.Err? ==> r.error == ConstraintRaw
    ensures r.Ok? ==> r.value == [Transfer(accounts.nftTemp.key, accounts.nftToken, accounts.nftTemp.amount),
                                  CloseAccount(accounts.nftTemp.key, accounts.exhibitor)]
  {
    if a.exhibitor != accounts.exhibitor || a.highestBidder != accounts.exhibitor
       || a.exhibitingNftTemp != accounts.nftTemp.key
    then Err(ConstraintRaw)
    else Ok([Transfer(accounts.nftTemp.key, accounts.nftToken, accounts.nftTemp.amount),
             CloseAccount(accounts.nftTemp.key, accounts.exhibitor)])
  }

  /** As written, a bid accepted from anyone but the exhibitor ends the chance to cancel; after
      an accepted bid by the exhibitor, the exhibitor can cancel again. */
  lemma NoCancelAfterBid(a: AuctionData, bid: BidAccounts, price: u64, now: i64, accounts: CancelAccounts)
    requires BidAsWritten(a, bid, price, now).Ok?
    ensures CancelSpec(BidAsWritten(a, bid, price, now).value.auction, accounts).Ok?
            <==> && bid.bidder == a.exhibitor && accounts.exhibitor == a.exhibitor
                 && accounts.nftTemp.key == a.exhibitingNftTemp
  {
  }

  /** With the exhibitor excluded from bidding, no accepted bid leaves cancel open. */
  lemma NoCancelAfterCorrectedBid(a: AuctionData, bid: BidAccounts, price: u64, now: i64, accounts: CancelAccounts)
    requires BidSpec(a, bid, price, now).Ok?
    ensures CancelSpec(BidSpec(a, bid, price, now).value.auction, accounts) == Err(ConstraintRaw)
  {
  }

  // ---------------------------------------------------------------- close

  /** The accounts of `close`. */
  datatype CloseAccounts = CloseAccounts(
    winningBidder: Pubkey,
    exhibitor: Pubkey,
    nftTemp: TokenAccount,
    exhibitorFtReceiving: Pubkey,
    highestBidderFtTemp: TokenAccount,
    highestBidderNftReceiving: Pubkey)

  /** The `Close` constraints. The end-time guard `endAt <= now` is the negation of the bid's
      `endAt > now`, so at any instant an auction takes either bids or a close, never both. */
  predicate CloseConstraints(a: AuctionData, accounts: CloseAccounts, now: i64)
  {
    && a.exhibitor == accounts.exhibitor
    && a.exhibitingNftTemp == accounts.nftTemp.key
    && a.exhibitorFtReceiving == accounts.exhibitorFtReceiving
    && a.highestBidder == accounts.winningBidder
    && a.highestBidderFtTemp == accounts.highestBidderFtTemp.key
    && a.endAt <= now
  }

  /** `close`: signed by the highest bidder once the auction has ended; the NFT goes to the
      winner, the escrowed payment to the exhibitor, and both temporary accounts are closed
      (the escrow account is closed too). */
  function CloseSpec(a: AuctionData, accounts: CloseAccounts, now: i64): (r: Result<seq<TokenOp>>)
    ensures r.Ok? <==> CloseConstraints(a, accounts, now)
    ensures r.Ok? ==> a.endAt <= now
    ensures r.Err? ==> r.error == ConstraintRaw
    ensures r.Ok? ==> r.value == [Transfer(a.exhibitingNftTemp, accounts.highestBidderNftReceiving,
                                           accounts.nftTemp.amount),
                                  Transfer(a.highestBidderFtTemp, a.exhibitorFtReceiving,
                                           accounts.highestBidderFtTemp.amount),
                                  CloseAccount(a.highestBidderFtTemp, a.highestBidder),
                                  CloseAccount(a.exhibitingNftTemp, a.exhibitor)]
  {
    if !CloseConstraints(a, accounts, now) then Err(ConstraintRaw)
    else Ok([Transfer(accounts.nftTemp.key, accounts.highestBidderNftReceiving, accounts.nftTemp.amount),
             Transfer(accounts.highestBidderFtTemp.key, accounts.exhibitorFtReceiving, accounts.highestBidderFtTemp.amount),
             CloseAccount(accounts.highestBidderFtTemp.key, accounts.winningBidder),
             CloseAccount(accounts.nftTemp.key, accounts.exhibitor)])
  }


  // ---------------------------------------------------------------- the escrow account

  /** The `Auction` account. `isClosed` marks an account that `cancel` or `close` has closed:
      its lamports are gone and it belongs to the System Program, so loading it for any later
      instruction fails with `AccountNotInitialized`. */
  class Auction {
    var data: AuctionData
    var isClosed: bool

    constructor (data: AuctionData)
      ensures this.data == data && !isClosed
    {
      this.data := data;
      isClosed := false;
    }

    /** `bid` on the account, with the constraints as written: on success the account holds
        the new state. */
    method Bid(accounts: BidAccounts, price: u64, now: i64) returns (r: Result<seq<TokenOp>>)
      modifies this
      ensures old(isClosed) ==> r == Err(AccountNotInitialized) && data == old(data)
      ensures !old(isClosed) ==>
                var s := BidAsWritten(old(data), accounts, price, now);
                if s.Ok? then r == Ok(s.value.ops) && data == s.value.auction
                else r == Err(s.error) && data == old(data)
      ensures isClosed == old(isClosed)
    {
      if isClosed {
        return Err(AccountNotInitialized);
      }
      var s := BidAsWritten(data, accounts, price, now);
      if s.Err? {
        return Err(s.error);
      }
      data := s.value.auction;
      return Ok(s.value.ops);
    }

    /** `cancel` on the account: on success the account is closed. */
    method Cancel(accounts: CancelAccounts) returns (r: Result<seq<TokenOp>>)
      modifies this
      ensures old(isClosed) ==> r == Err(AccountNotInitialized)
      ensures !old(isClosed) ==> r == CancelSpec(old(data), accounts)
      ensures isClosed == (old(isClosed) || r.Ok?)
      ensures data == old(data)
    {
      if isClosed {
        return Err(AccountNotInitialized);
      }
      r := CancelSpec(data, accounts);
      if r.Ok? {
        isClosed := true;
      }
    }

    /** `close` on the account: on success the account is closed. */
    method Close(accounts: CloseAccounts, now: i64) returns (r: Result<seq<TokenOp>>)
      modifies this
      ensures old(isClosed) ==> r == Err(AccountNotInitialized)
      ensures !old(isClosed) ==> r == CloseSpec(old(data), accounts, now)
      ensures isClosed == (old(isClosed) || r.Ok?)
      ensures data == old(data)
    {
      if isClosed {
        return Err(AccountNotInitialized);
      }
      r := CloseSpec(data, accounts, now);
      if r.Ok? {
        isClosed := true;
      }
    }
  }

  /** `exhibit`: a new escrow account with the exhibited auction. */
  method Exhibit(accounts: ExhibitAccounts, initialPrice: u64, duration: u64, now: i64)
    returns (r: Result<Auction>, ops: seq<TokenOp>)
    ensures var s := ExhibitSpec(accounts, initialPrice, duration, now);
            && (r.Ok? <==> s.Ok?)
            && (r.Ok? ==> fresh(r.value) && r.value.data == s.value.auction && !r.value.isClosed
                          && ops == s.value.ops)
            && (r.Err? ==> r.error == s.error && ops == [])
  {
    var s := ExhibitSpec(accounts, initialPrice, duration, now);
    if s.Err? {
      return Err(s.error), [];
    }
    var escrow := new Auction(s.value.auction);
    return Ok(escrow), s.value.ops;
  }
}

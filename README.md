# Music NFT marketplace: auction, playback and royalty program, and the web player

This project models two parts of a music NFT marketplace.

The first part is the Solana program written with Anchor (`anchor-auction`). It provides:
- an English auction for one NFT: exhibit, bid, cancel and close;
- a registry of music tracks, each with an allow-list of NFT collections;
- a playback-authorization check that can be cached for each user and track for one hour;
- royalty configurations for each NFT mint, and a sale that splits the price between the royalty recipients and the seller.

The second part is the arithmetic and state behind the React music player:
- time formatting;
- Base64 encoding of cover art;
- seek, skip and the progress bar;
- the tag fallbacks;
- the play/pause effect with its one-second polling interval.

## How the program is modelled

- **Integer types.** Machine integers are subset types of `int`: `u8`, `u16`, `u64` and `i64` (`common.dfy`).
- **Arithmetic overflow.** The program is built with overflow checks on. An unchecked `+` that overflows therefore aborts the transaction, and so does an `unwrap` of a failed `checked_*`. Both appear as `Err(Panic)`.
- **Conversions.** The `as i64` at lib.rs line 85 and the `as u64` at line 608 are written out explicitly.
- **Account constraints.** Each Anchor account constraint becomes a condition of the handler. A violated constraint returns the error Anchor reports: `ConstraintRaw`, unless the constraint names an error code. An account at an address other than its `seeds` derive fails with `ConstraintSeeds`, which Anchor checks before the account's other constraints; the derivation itself is not modelled, and the model returns `ConstraintSeeds` exactly where the stored fields show that the account cannot be at the derived address.
- **State.** Accounts that a handler changes in place are classes: `Auction`, `MusicTrack`, `AuthorizationRegistry`, `UserAuthCache` and `RoyaltyConfig`. Their methods are proved against pure specification functions over value snapshots.
- **Token program calls.** A handler returns the calls it makes as a list of `TokenOp` values (`Transfer`, `SetOwner`, `CloseAccount`). It does not change token balances itself.
- **Handler inputs.** The clock and the remaining accounts are parameters.
- **Code as written.** The instruction methods (`Auction.Auction.Bid`, `Tracks.VerifyPlaybackAuthorization`, `Sale.ProcessSaleWithRoyalties` and the loops it runs) follow the constraints and checks exactly as the code writes them. For each defect listed under "## Findings" the corrected rule is a separate function. Its intended property is proved, and a lemma states exactly where the corrected and the written versions differ. The one exception is the royalty amount: the sale uses the corrected `RoyaltyMath.RoyaltyAmount`, which agrees with the written one on every configuration that validation admits (see "## Left out").
- **Iteration order.** The royalty batch is a `HashMap`, so the order of its transfers is not specified. That order is a ghost output of `PayRecipients`.

## How the player is modelled

- **Numbers.** JavaScript numbers are `real`s. `Player.NatToString` prints plain decimal digits. JavaScript prints numbers of 1e21 and above in exponent form, which the model does not.
- **Rounding.** `Math.floor` is `.Floor`. JavaScript's truncating `%` is `JsRem`.
- **Base64.** `window.btoa` is Base64 as in section 4 of RFC 4648. Together with its decoder, it is proved to round-trip.
- **The player object.** The player component is the class `PlayerState.MusicPlayer`. Its fields are:
  - the React state;
  - the audio element's position, duration and whether it is playing;
  - the number of `loadedmetadata` listeners;
  - the interval reference;
  - the set of intervals that are live.
- **Invariant.** `Valid()` states that at most one polling interval is live, and that it is the one the ref names. Every event handler preserves it.

## Player behaviour as written

The model follows the code in each case:

- **Seek.** `handleSeek` (MusicPlayerInterface.jsx lines 235-240) does not clamp its result (`Player.SeekPastBar` states this of the formula). It divides `offsetX` by the `offsetWidth` of the element the click landed on. The played part of the bar is a purple fill drawn inside it (lines 453-459 and 619-624, with a knob at 623), so a click there measures against the fill: at 50% progress, a click at a quarter of the bar seeks to half the track. The model takes the hit element's width as a parameter and does not model which element is hit. A zero-width element divides by zero and writes NaN or ±Infinity, which the audio element rejects with a thrown error (`PlayerState.MusicPlayer.HandleSeek`).
- **Play failure.** A failed `play()` (line 186) is only logged. `isPlaying` stays true.
- **Metadata.** The metadata fetch (lines 142-163) has no generation guard.

## Model

| member | source | states |
|---|---|---|
| Common.U64AsI64 | Contracts/programs/anchor-auction/src/lib.rs:85 | `duration as i64` is non-negative exactly when the duration fits in i64, and equals it modulo 2^64 |
| RoyaltyMath.RoyaltyAmountAsWritten | Contracts/programs/anchor-auction/src/lib.rs:603-610 | as written, the royalty never fails: the result is the u128 quotient price*bp/10000 reduced modulo 2^64 by `as u64` |
| RoyaltyMath.RoyaltyAmountAsWrittenTruncates | Contracts/programs/anchor-auction/src/lib.rs:605-609 | for price u64::MAX at 20000 basis points the true quotient exceeds u64::MAX, yet the as-written function succeeds with a smaller value |
| RoyaltyMath.RoyaltyAmount | Contracts/programs/anchor-auction/src/lib.rs:603-610 | corrected: succeeds exactly when the quotient fits in u64; the value is the floor of price*bp/10000; otherwise `ProgramArithmeticOverflow` (`ProgramError::ArithmeticOverflow`) |
| RoyaltyMath.RoyaltyAmountBounded | Contracts/programs/anchor-auction/src/lib.rs:603-610 | at no more than 10000 basis points the royalty always exists and never exceeds the price |
| RoyaltyMath.RoyaltyAmountAgreesWhenBounded | Contracts/programs/anchor-auction/src/lib.rs:603-610 | at no more than 10000 basis points the as-written and corrected royalty coincide |
| RoyaltyMath.RecipientShare | Contracts/programs/anchor-auction/src/lib.rs:613-633 | succeeds exactly when the total basis points are non-zero and the quotient fits; the share is the floor of total*bp/totalBp; otherwise `ProgramArithmeticOverflow` (`ProgramError::ArithmeticOverflow`) |
| RoyaltyMath.RecipientShareBounded | Contracts/programs/anchor-auction/src/lib.rs:613-633 | a recipient holding at most the total basis points always gets a share, and it never exceeds the amount split |
| RoyaltyMath.ShareSuperadditive | Contracts/programs/anchor-auction/src/lib.rs:625-632 | rounding each recipient down separately never pays more than rounding their combined basis points down |
| RoyaltyMath.ShareOfWhole | Contracts/programs/anchor-auction/src/lib.rs:625-632 | a recipient holding all the basis points gets the whole amount |
| Royalty.CheckedSumBasisPoints | Contracts/programs/anchor-auction/src/lib.rs:396-398 | the `.iter().map(..).sum()` of the recipients' `u16` rates (the same fold at lines 441-443), whose overflow panics under overflow checks, succeeds exactly when the true sum fits in u16 and returns it |
| Royalty.ValidateRoyaltyParams | Contracts/programs/anchor-auction/src/lib.rs:385-403 | passes exactly for valid parameters; each error (`RoyaltyBasisPointsExceedMax`, `TooManyRoyaltyRecipients`, the overflow panic, `RoyaltyBasisPointsMismatch`) is returned exactly when its check is the first to fail |
| Royalty.RecipientWithinSum | Contracts/programs/anchor-auction/src/lib.rs:396-403 | every recipient's basis points are at most the sum that validation compares with the total |
| Royalty.GetRoyaltyConfigSize | Contracts/programs/anchor-auction/src/lib.rs:1226-1239 | `get_royalty_config_size`; no contract of its own: `Royalty.RoyaltyConfigSizeExact` states that it is the serialized size of every configuration with that many recipients |
| Royalty.RoyaltyConfigSizeExact | Contracts/programs/anchor-auction/src/lib.rs:1226-1239 | the space allocated for a configuration with n recipients equals the Borsh size of every configuration with n recipients |
| Royalty.RecipientsSizeLinear | Contracts/programs/anchor-auction/src/lib.rs:1233-1236 | the recipients vector occupies 35 bytes per recipient, after its 4-byte length prefix |
| Royalty.RoyaltyConfig.constructor | Contracts/programs/anchor-auction/src/lib.rs:1063-1071 | a configuration account holds exactly the given mint, basis points, recipients, authority, mutability and bump, in `get_royalty_config_size` of its recipient count bytes (line 1107) |
| Royalty.CreateRoyaltyConfig | Contracts/programs/anchor-auction/src/lib.rs:378-415 | succeeds exactly when the authority holds the NFT and the parameters are valid; fails with `ConstraintRaw` for the account constraint first, otherwise with validation's error; creates a valid account with the given fields, sized for its recipients |
| Royalty.UpdateRoyaltyConfigCheck | Contracts/programs/anchor-auction/src/lib.rs:1117-1145 | passes exactly when the signer is the authority, holds the NFT if an NFT account is passed, the mint matches, the config is mutable, the parameters are valid and the new configuration fits the space allocated at creation; otherwise the first failed check gives its error: `UnauthorizedRoyaltyUpdate` for a wrong signer, `ConstraintRaw` when a passed NFT account does not show the signer holding the NFT, `ConstraintSeeds` for a configuration of another mint (it lives at that mint's address, so the `seeds` check refuses it before the raw constraint, whose `InvalidRoyaltyConfig` cannot occur), `ImmutableRoyaltyConfig` for an immutable config, validation's own error for invalid parameters, and `AccountDidNotSerialize` for a valid update that no longer fits |
| Royalty.UpdateRoyaltyConfig | Contracts/programs/anchor-auction/src/lib.rs:418-456 | the outcome is the check's over the stored authority, mint, mutability and allocated space; on success only the basis points and recipients change, to the new ones; on failure nothing changes; validity, including fitting the account, is preserved |
| Royalty.UpdateFitsCreationSpace | Contracts/programs/anchor-auction/src/lib.rs:1104-1111 | a configuration fits the space allocated for n recipients exactly when it has at most n recipients, so an update can never lengthen the list past its length at creation |
| Royalty.BatchSpec | Contracts/programs/anchor-auction/src/lib.rs:643-663 | the fold that `batch_royalty_recipients` performs; no contract of its own: `Royalty.BatchContents`, `Royalty.BatchKeys` and `Royalty.BatchTotal` state its contents, keys and total, and `Royalty.BatchRoyaltyRecipients` proves the loop equal to it |
| Royalty.BatchRoyaltyRecipients | Contracts/programs/anchor-auction/src/lib.rs:637-666 | the loop computes the fold `BatchSpec`: zero shares skipped, the shares of a repeated recipient added with a plain `+=` (line 655) that panics on overflow, the first error returned |
| Royalty.BatchFailureSticks | Contracts/programs/anchor-auction/src/lib.rs:646-656 | once a prefix of the recipients fails (`?`), the whole batch fails with that error |
| Royalty.BatchContents | Contracts/programs/anchor-auction/src/lib.rs:643-663 | a recipient is in the batch exactly when its shares add up to more than zero, and its entry is the sum of all its shares |
| Royalty.BatchKeys | Contracts/programs/anchor-auction/src/lib.rs:643-663 | only configured recipients appear in the batch |
| Royalty.BatchTotal | Contracts/programs/anchor-auction/src/lib.rs:643-663 | the batch's entries add up to the sum of every recipient's share |
| Royalty.BatchWithinTotal | Contracts/programs/anchor-auction/src/lib.rs:643-663 | when the recipients' basis points are at most the total, batching succeeds and the shares add up to no more than the amount split |
| Royalty.BatchOfValidConfig | Contracts/programs/anchor-auction/src/lib.rs:546-550 | for a validated configuration the batch exists and pays out no more than the royalty |
| Sale.SaleConstraints | Contracts/programs/anchor-auction/src/lib.rs:1147-1184 | passes exactly when the seller holds the NFT, the config is for this mint and the payment account is the buyer's; `ConstraintRaw`, `ConstraintSeeds` and `InvalidNFTOwnership` are each returned exactly when their constraint is the first violated; a configuration of another mint lives at another address, so the `seeds` check refuses it before the raw constraint, whose `InvalidRoyaltyConfig` cannot occur |
| Sale.DirectTransfer | Contracts/programs/anchor-auction/src/lib.rs:466-480 | the direct payment, unchecked by the handler, is refused by the token program with `TokenInsufficientFunds` when the buyer cannot cover the price, and otherwise with `TokenProgramMintMismatch` when the account passed as the seller's payment account has another mint; it succeeds exactly when neither applies, and moves exactly the price |
| Sale.RecipientAccountsAsWritten | Contracts/programs/anchor-auction/src/lib.rs:528-543 | as written, the check succeeds exactly when every recipient's account deserializes and has the payment mint; the map is keyed by the recipients and holds accounts of the payment mint; errors are `AccountDidNotDeserialize` or `TokenMintMismatch` |
| Sale.RecipientAccountsAsWrittenIgnoresOwner | Contracts/programs/anchor-auction/src/lib.rs:529-543 | a token account owned by the buyer is accepted as the artist's payout account |
| Sale.RecipientAccounts | Contracts/programs/anchor-auction/src/lib.rs:528-543 | corrected: succeeds exactly when every recipient's account deserializes, has the payment mint and is owned by that recipient; the map is keyed by recipient with owner == key; errors are the three codes of the loop |
| Sale.RecipientAccountsRefinesAsWritten | Contracts/programs/anchor-auction/src/lib.rs:528-543 | whenever the corrected check accepts, the as-written one accepts with the same map; where only the as-written one accepts, some recipient's account is owned by someone else |
| Sale.BuildRecipientAccounts | Contracts/programs/anchor-auction/src/lib.rs:528-543 | the loop computes `RecipientAccountsAsWritten` |
| Sale.RecipientAccountsFailureSticks | Contracts/programs/anchor-auction/src/lib.rs:531-541 | an error at some recipient is the error of the whole check |
| Sale.RoyaltiesReachOwnersWhenChecked | Contracts/programs/anchor-auction/src/lib.rs:528-581 | wherever the corrected check accepts the accounts, each royalty transfer of the written path goes to an account its recipient owns |
| Sale.SumPayouts | Contracts/programs/anchor-auction/src/lib.rs:553-557 | the `checked_add` fold succeeds exactly when the batch sum fits in u64 and returns that sum, otherwise `ProgramArithmeticOverflow` (`ProgramError::ArithmeticOverflow`) |
| Sale.PayoutOps | Contracts/programs/anchor-auction/src/lib.rs:564-581 | one transfer per key, in order, from the buyer to that recipient's account, for that recipient's amount |
| Sale.PayRecipients | Contracts/programs/anchor-auction/src/lib.rs:564-581 | succeeds exactly when every batched recipient has an account (`InvalidRecipientAccount` otherwise); each recipient is paid once, and the transfers add up to the batch sum |
| Sale.RoyaltySplit | Contracts/programs/anchor-auction/src/lib.rs:483-599 | every transfer is from the buyer; they add up to the sale price, which the buyer can cover; each batched recipient is paid once into the account passed for it and the account passed as the seller's payment account gets the rest; for valid parameters it succeeds exactly when the funds, count, mint, account and sum checks as written all pass |
| Sale.ProcessSaleWithRoyalties | Contracts/programs/anchor-auction/src/lib.rs:459-600 | a constraint failure is the error; the zero-royalty path is the direct transfer; every successful sale moves exactly the price out of the buyer's account and no more than it holds; for a valid configuration it succeeds exactly when the chosen path's checks pass |
| Tracks.MusicTrack.constructor | Contracts/programs/anchor-auction/src/lib.rs:942-950 | a new track holds the given fields and an empty allow-list |
| Tracks.AuthorizationRegistry.constructor | Contracts/programs/anchor-auction/src/lib.rs:953-957 | a registry created by `init_if_needed` starts zeroed |
| Tracks.UserAuthCache.constructor | Contracts/programs/anchor-auction/src/lib.rs:961-965 | a cache holds the given user, track and expiry |
| Tracks.RegisterMusicTrack | Contracts/programs/anchor-auction/src/lib.rs:191-219 | succeeds exactly when the track count is below u64::MAX (panics otherwise); creates a track with the given fields and no collections; the first registration sets the registry authority; the count goes up by one |
| Tracks.AddCollection | Contracts/programs/anchor-auction/src/lib.rs:234-243 | fails with `InvalidMusicTrack` exactly when the mint is new and the list is full; otherwise the list afterwards holds the old entries plus the mint, unchanged if the mint was present |
| Tracks.AddCollectionIdempotent | Contracts/programs/anchor-auction/src/lib.rs:235-243 | adding the same collection twice is the same as adding it once |
| Tracks.AddCollectionPreservesValid | Contracts/programs/anchor-auction/src/lib.rs:235-242 | the allow-list stays free of duplicates and within 20 entries |
| Tracks.AddAuthorizedCollection | Contracts/programs/anchor-auction/src/lib.rs:222-246 | anyone but the track authority gets `UnauthorizedPlayback`; otherwise the allow-list becomes `AddCollection`'s result; no other field changes; validity is preserved |
| Tracks.CreateUserAuthCache | Contracts/programs/anchor-auction/src/lib.rs:365-375 | a new cache for the user and track, already expired (expiry 0) |
| Tracks.GrantRefreshing | Contracts/programs/anchor-auction/src/lib.rs:268-272 | refreshing the cache panics exactly when a cache is present and `now + 3600` overflows i64 |
| Tracks.PlaybackBody | Contracts/programs/anchor-auction/src/lib.rs:249-362 | the handler grants exactly when an unexpired cache is present, or the track is public or the user holds a qualifying NFT and any refresh fits; `Cached` and `Public` exactly in those cases; each error names its failed check |
| Tracks.AuthorizePlaybackAsWritten | Contracts/programs/anchor-auction/src/lib.rs:1045-1053 | as written, a cache of another user fails its address derivation (`ConstraintSeeds`), and one at this user's address whose stored track id differs is `ConstraintRaw`; any expired cache is rejected with `AuthorizationExpired` before the handler runs; otherwise playback is granted exactly when the cache is unexpired, or the public or NFT path passes and any refresh fits; `Cached` exactly for an unexpired matching cache |
| Tracks.AuthorizePlaybackAsWrittenRejectsFreshCache | Contracts/programs/anchor-auction/src/lib.rs:1050 | a newly created cache (expiry 0) makes playback of a public track fail as written, while the corrected check grants it |
| Tracks.AuthorizePlaybackAsWrittenRefreshesOnlyAtExpiry | Contracts/programs/anchor-auction/src/lib.rs:1050 | as written, a cache is refreshed only when the check runs at the very second it expires |
| Tracks.AuthorizePlayback | Contracts/programs/anchor-auction/src/lib.rs:249-362 | corrected: a cache of another user is `ConstraintSeeds`, one whose stored track id differs `ConstraintRaw`; otherwise playback is granted exactly when the cache is unexpired, or the track is public or NFT-gated and passes and any refresh fits; never `AuthorizationExpired` |
| Tracks.AuthorizePlaybackVersionsAgree | Contracts/programs/anchor-auction/src/lib.rs:1045-1053 | without a cache, or with an unexpired one, the as-written and corrected checks give the same result |
| Tracks.RefreshedCacheGrants | Contracts/programs/anchor-auction/src/lib.rs:351-355 | after a refresh at `now`, every check before `now + 3600` is granted from the cache, by both the written and the corrected check |
| Tracks.VerifyPlaybackAuthorization | Contracts/programs/anchor-auction/src/lib.rs:249-362 | the result is `AuthorizePlaybackAsWritten` of the track and the cache; a grant not taken from the cache refreshes the cache to this user, track and `now + 3600`; otherwise the cache is unchanged |
| Auction.EndAt | Contracts/programs/anchor-auction/src/lib.rs:85 | `now + duration as i64` succeeds exactly when it stays in i64 (panics otherwise); for a duration that fits, the end is `now + duration` |
| Auction.HugeDurationEndsInPast | Contracts/programs/anchor-auction/src/lib.rs:85 | a duration above i64::MAX wraps negative and puts the end before `now` |
| Auction.ExhibitSpec | Contracts/programs/anchor-auction/src/lib.rs:73-100 | succeeds exactly when the exhibitor's NFT account holds one token and the end time fits; the exhibitor starts as highest bidder at the initial price, the temporary NFT account is recorded, and the exhibitor's receiving account stands for all three bidder accounts; escrow ownership passes to the program and the NFT moves to escrow |
| Auction.BidBody | Contracts/programs/anchor-auction/src/lib.rs:122-157 | the bid records the new price, the bidder and the bidder's accounts |
| Auction.BidAsWritten | Contracts/programs/anchor-auction/src/lib.rs:719-748 | as written, a bid is accepted exactly when the account constraints hold, `ConstraintRaw` otherwise; a higher price before the end, the new highest bidder, and the exhibitor, end and exhibit accounts unchanged |
| Auction.BidAsWrittenLetsExhibitorBid | Contracts/programs/anchor-auction/src/lib.rs:731-734 | the exhibitor can outbid another bidder on their own auction |
| Auction.BidAsWrittenLosesExhibitorDeposit | Contracts/programs/anchor-auction/src/lib.rs:126-139 | a later bid does not refund the exhibitor's deposit, and the exhibitor can then cancel |
| Auction.BidSpec | Contracts/programs/anchor-auction/src/lib.rs:122-157 | corrected: accepted exactly when the constraints hold and the bidder is not the exhibitor (`ConstraintRaw` otherwise); a higher price before the end, and the auction's other fields unchanged |
| Auction.BidSpecRefinesAsWritten | Contracts/programs/anchor-auction/src/lib.rs:719-748 | the corrected and written rules agree on every bid not made by the exhibitor; a bid by the exhibitor is refused by the corrected rule |
| Auction.BidRefundsPreviousBidder | Contracts/programs/anchor-auction/src/lib.rs:126-149 | for every bid the instruction accepts as written, the previous bid is refunded exactly when the highest bidder is not the exhibitor; the new deposit is the last transfer; the total moved is the price plus any refund |
| Auction.CancelSpec | Contracts/programs/anchor-auction/src/lib.rs:102-120 | the exhibitor can cancel exactly while nobody has bid; the NFT returns and the escrow closes to the exhibitor |
| Auction.NoCancelAfterBid | Contracts/programs/anchor-auction/src/lib.rs:703-709 | as written, after an accepted bid a cancel is allowed exactly when the bid was the exhibitor's own and the cancel comes from the exhibitor with the escrowed NFT account; after anyone else's bid it is refused |
| Auction.NoCancelAfterCorrectedBid | Contracts/programs/anchor-auction/src/lib.rs:703-709 | corrected: after any bid accepted by the corrected rule `BidSpec`, a cancel is refused |
| Auction.CloseSpec | Contracts/programs/anchor-auction/src/lib.rs:159-188 | closing succeeds exactly when its constraints hold, and only after the end; the NFT goes to the highest bidder, the payment to the exhibitor, and the bid's and the NFT's temporary accounts are closed to the highest bidder and the exhibitor |
| Auction.Auction.constructor | Contracts/programs/anchor-auction/src/lib.rs:928-937 | the escrow account holds the given auction state and is open |
| Auction.Auction.Bid | Contracts/programs/anchor-auction/src/lib.rs:122-157 | a closed escrow refuses with `AccountNotInitialized`, the error of loading an account that `close = ...` emptied; otherwise the state becomes `BidAsWritten`'s on success and is unchanged on failure |
| Auction.Auction.Cancel | Contracts/programs/anchor-auction/src/lib.rs:102-120 | the result is `CancelSpec`'s; a successful cancel closes the escrow |
| Auction.Auction.Close | Contracts/programs/anchor-auction/src/lib.rs:159-188 | the result is `CloseSpec`'s; a successful close closes the escrow |
| Auction.Exhibit | Contracts/programs/anchor-auction/src/lib.rs:73-100 | creates a fresh open escrow holding `ExhibitSpec`'s state, with its token calls, exactly when it succeeds |
| Base64.ValueOf | components/MusicPlayer/MusicPlayerInterface.jsx:109 | each alphabet symbol's value is below 64, and it maps back to that symbol |
| Base64.SymbolIsSymbol | components/MusicPlayer/MusicPlayerInterface.jsx:109 | each 6-bit value's symbol is in the alphabet and decodes back to the value |
| Base64.Encode | components/MusicPlayer/MusicPlayerInterface.jsx:109 | the RFC 4648 section 4 encoding `btoa` produces; no contract of its own: `Base64.EncodeLength` states its length and `Base64.DecodeEncode` that an independent decoder inverts it |
| Base64.EncodeLength | components/MusicPlayer/MusicPlayerInterface.jsx:109 | n bytes encode to 4*ceil(n/3) characters |
| Base64.DecodeEncodeGroup | components/MusicPlayer/MusicPlayerInterface.jsx:109 | a full 3-byte group decodes back to its bytes |
| Base64.DecodeEncodeTwo | components/MusicPlayer/MusicPlayerInterface.jsx:109 | a final 2-byte group with one `=` decodes back |
| Base64.DecodeEncodeOne | components/MusicPlayer/MusicPlayerInterface.jsx:109 | a final 1-byte group with `==` decodes back |
| Base64.DecodeEncode | components/MusicPlayer/MusicPlayerInterface.jsx:109 | decoding the encoding of any bytes gives back those bytes |
| Base64.EncodeInjective | components/MusicPlayer/MusicPlayerInterface.jsx:109 | different byte strings have different encodings |
| Base64.BinaryStringBytes | components/MusicPlayer/MusicPlayerInterface.jsx:103-108 | a string of codes below 256 stands for the byte string of the same length and codes |
| Base64.Btoa | components/MusicPlayer/MusicPlayerInterface.jsx:109 | `btoa` succeeds exactly on strings whose characters all have codes below 256 |
| Base64.BinaryString | components/MusicPlayer/MusicPlayerInterface.jsx:103-108 | the loop builds one character per byte, and each character's code is that byte |
| Base64.Uint8ArrayToBase64 | components/MusicPlayer/MusicPlayerInterface.jsx:102-110 | the result is the Base64 encoding of the bytes, of length 4*ceil(n/3), and decodes back to the bytes |
| Player.NatToString | components/MusicPlayer/MusicPlayerInterface.jsx:116-118 | `toString` of a non-negative integer is a non-empty digit string, one digit long exactly below 10 |
| Player.IntToString | components/MusicPlayer/MusicPlayerInterface.jsx:116-118 | a negative integer prints as `-` followed by its magnitude |
| Player.DigitsValueOfNatToString | components/MusicPlayer/MusicPlayerInterface.jsx:116-118 | reading the printed digits back gives the number |
| Player.Pad2 | components/MusicPlayer/MusicPlayerInterface.jsx:116-118 | `padStart(2, "0")` keeps the string as its suffix, fills up to length 2 with zeros only, and keeps digit strings digit strings |
| Player.Pad2Value | components/MusicPlayer/MusicPlayerInterface.jsx:116-118 | zero-padding does not change the number the digits read as |
| Player.FloorFields | components/MusicPlayer/MusicPlayerInterface.jsx:114-115 | for t >= 0, `Math.floor(t / 60)` and `Math.floor(t % 60)` are the quotient and remainder of the whole seconds by 60 |
| Player.FormatTime | components/MusicPlayer/MusicPlayerInterface.jsx:113-119 | `formatTime`; no contract of its own: `Player.FormatTimeFields` states its `mm:ss` shape and `Player.FormatTimeReadsBack` that the text reads back as the whole seconds |
| Player.FormatTimeFields | components/MusicPlayer/MusicPlayerInterface.jsx:113-119 | for t >= 0 the text is the padded minutes, `:`, and the two-digit seconds, with seconds below 60 and minutes*60 + seconds the whole seconds |
| Player.FormatTimeOf | components/MusicPlayer/MusicPlayerInterface.jsx:113-119 | any split of the whole seconds into m minutes and s < 60 seconds formats as padded m, `:`, padded s |
| Player.FieldsReadBack | components/MusicPlayer/MusicPlayerInterface.jsx:116-118 | the joined `mm:ss` text splits back at the last `:` into digit fields reading as m and s |
| Player.FormatTimeReadsBack | components/MusicPlayer/MusicPlayerInterface.jsx:113-119 | for t >= 0 the text reads back: the digits before the final `:ss` times 60 plus `ss` (below 60) is the whole seconds |
| Player.FormatTimeStart | components/MusicPlayer/MusicPlayerInterface.jsx:113-119 | 0 seconds is `00:00` |
| Player.FormatTimeMinuteAndAHalf | components/MusicPlayer/MusicPlayerInterface.jsx:113-119 | 65.5 seconds is `01:05` |
| Player.FormatTimeHour | components/MusicPlayer/MusicPlayerInterface.jsx:113-119 | an hour is `60:00`: minutes are not wrapped into hours |
| Player.FormatTimeNegative | components/MusicPlayer/MusicPlayerInterface.jsx:113-119 | -5 seconds is `-1:-5`: floor and truncating `%` disagree below zero |
| Player.SkipTarget | components/MusicPlayer/MusicPlayerInterface.jsx:246-250 | the skip target is never negative and, with a known duration, never past it; it is the position plus or minus 10 when that is in range, clamped to the end or 0 otherwise |
| Player.SkipForwardThenBack | components/MusicPlayer/MusicPlayerInterface.jsx:243-251 | away from both ends, skipping forward then back returns to the same position |
| Player.SeekTarget | components/MusicPlayer/MusicPlayerInterface.jsx:237 | the seek time is not a finite number (NaN or ±Infinity) exactly for a zero-width hit element; otherwise it is the offset's fraction of that element's width times the duration |
| Player.SeekWithinBar | components/MusicPlayer/MusicPlayerInterface.jsx:237 | an offset within the hit element's width seeks within [0, duration]; offset zero seeks to 0 and the full width to the end |
| Player.SeekPastBar | components/MusicPlayer/MusicPlayerInterface.jsx:237 | the formula has no clamp: an offset of 150 over a width of 100 for a 60 s track gives 90 s, past the end |
| Player.CurrentPercentage | components/MusicPlayer/MusicPlayerInterface.jsx:255-257 | 0 while the duration is 0, otherwise the progress as a percentage of the duration |
| Player.PercentageWithinBar | components/MusicPlayer/MusicPlayerInterface.jsx:255-257 | progress within the track gives a percentage in [0, 100], 0 at the start and 100 at the end |
| Player.TagOr | components/MusicPlayer/MusicPlayerInterface.jsx:414 | `tag \|\| fallback` is the tag when it is a non-empty string, the fallback otherwise |
| Player.Title | components/MusicPlayer/MusicPlayerInterface.jsx:414 | the title shown is never empty, and is `Unknown Title` exactly when no metadata, no title, an empty title or that literal title |
| Player.Artist | components/MusicPlayer/MusicPlayerInterface.jsx:418 | the same for the artist and `Unknown Artist` |
| Player.Album | components/MusicPlayer/MusicPlayerInterface.jsx:422 | the same for the album and `Unknown Album` |
| Player.FallbacksIndependent | components/MusicPlayer/MusicPlayerInterface.jsx:414-422 | each shown field depends only on its own tag |
| Player.RenderImage | components/MusicPlayer/MusicPlayerInterface.jsx:200-231 | the default artwork is shown exactly when there is no metadata, no or an empty picture list, or the first picture's data encodes to the empty string |
| Player.RenderImageCarriesPicture | components/MusicPlayer/MusicPlayerInterface.jsx:206-211 | the displayed image is a `data:<format>;base64,` URI whose payload decodes to the first picture's bytes |
| PlayerState.MusicPlayer.AtMostOneInterval | components/MusicPlayer/MusicPlayerInterface.jsx:176-196 | in every reachable state at most one polling interval is live, and it is the one the ref holds |
| PlayerState.MusicPlayer.constructor | components/MusicPlayer/MusicPlayerInterface.jsx:121-139 | the mounted player starts paused at 0 with no interval; in a browser the audio element exists and the effect has subscribed once |
| PlayerState.MusicPlayer.ClearInterval | components/MusicPlayer/MusicPlayerInterface.jsx:190 | `clearInterval` removes only the given interval (nothing for `undefined`) and changes nothing else |
| PlayerState.MusicPlayer.StartTimer | components/MusicPlayer/MusicPlayerInterface.jsx:176-181 | `startTimer` clears the interval the ref names, then starts one new interval and stores it in the ref |
| PlayerState.MusicPlayer.Cleanup | components/MusicPlayer/MusicPlayerInterface.jsx:193-196 | the effect's cleanup removes its listener and stops the live interval |
| PlayerState.MusicPlayer.RunPlaybackEffect | components/MusicPlayer/MusicPlayerInterface.jsx:166-197 | with audio, the effect subscribes once and makes the audio's playing match `isPlaying`; while playing exactly one fresh interval is live, while paused none; without audio nothing happens; validity is preserved |
| PlayerState.MusicPlayer.TogglePlay | components/MusicPlayer/MusicPlayerInterface.jsx:435 | the button flips `isPlaying`; the effect's rerun leaves the audio playing exactly when `isPlaying`, with exactly one fresh interval while playing and none while paused |
| PlayerState.MusicPlayer.Play | components/MusicPlayer/MusicPlayerInterface.jsx:186 | time passing advances the audio position only while the audio plays |
| PlayerState.MusicPlayer.Tick | components/MusicPlayer/MusicPlayerInterface.jsx:178-180 | a tick of the live interval copies the audio position into the displayed progress, and only happens while playing; a stale interval id changes nothing |
| PlayerState.MusicPlayer.LoadedMetadata | components/MusicPlayer/MusicPlayerInterface.jsx:172-174 | the `loadedmetadata` event sets the displayed duration only while the effect has its listener attached |
| PlayerState.MusicPlayer.HandleSeek | components/MusicPlayer/MusicPlayerInterface.jsx:235-240 | with audio, a seek on a zero-width hit element throws and changes nothing; otherwise position and progress become `SeekTarget`'s value; no other field changes |
| PlayerState.MusicPlayer.HandleSkip | components/MusicPlayer/MusicPlayerInterface.jsx:243-252 | with audio, position and progress become `SkipTarget`'s value, within [0, duration]; without audio nothing changes |
| PlayerState.MusicPlayer.Unmount | components/MusicPlayer/MusicPlayerInterface.jsx:193-196 | unmounting runs the cleanup, so no interval and no listener are left, but it does not pause the audio |

## Left out

- The payment path of `process_sale_with_royalties` is out of scope: `verify_and_process_royalty_payment` (lib.rs lines 1187-1215), `get_royalty_config_seeds` (1218-1223) and `find_royalty_config_pda` (669-671) are helpers that no modelled handler calls.
- PDA derivation (`find_program_address`), seeds and bumps: program-derived addresses are opaque keys; the escrow PDA is the constant `ESCROW_PDA` and bumps are stored as given.
- Account creation, rent and the lamports returned by `close`: the model keeps only a closed flag on the escrow account. Of `space`, only the royalty configuration's is kept, because an update must fit it.
- Signer checks: Anchor's `Signer` and `#[account(signer)]` are represented by the key a handler receives as its signer.
- Token program behaviour: the token calls a handler makes are returned as data and not executed. Of the token program's own checks, the model keeps the two a transfer can fail on with the accounts this program is given: a short source balance (`TokenInsufficientFunds`) and a mint mismatch between source and destination (`TokenProgramMintMismatch`), both on the direct payment paths, where the handler checks neither. The source account's authority and frozen accounts are left out.
- Validity of the Metaplex metadata account: only its key is compared, and the collection-parsing step at lib.rs 330-345 is a stub in the source, so an NFT qualifies through its own mint only.
- Royalty.CreateRoyaltyConfig: the `CreateRoyaltyConfig` accounts struct (lib.rs lines 1088-1113) sizes the account with `recipients.len()` at line 1107 but has no `#[instruction(..)]` attribute (only lines 675, 718 and 970 have one), so `recipients` is not in scope there and the file as written does not build. The model, and `Royalty.RoyaltyConfig.constructor`, read it as the instruction's `recipients` argument, which is what the expression evidently means.
- `Account::try_from` failures of a remaining account: Anchor distinguishes an uninitialized account (`AccountNotInitialized`), one owned by another program (`AccountOwnedByWrongProgram`) and one that does not deserialize (`AccountDidNotDeserialize`); the model merges all three into `AccountDidNotDeserialize` (`None` in `RemainingAccounts`).
- `Clock::get()` failure: the clock is a parameter and never fails.
- HashMap iteration order in `process_sale_with_royalties` (lines 564-581): the order of payouts is unspecified, and the model states it as a ghost output with each recipient paid once.
- RoyaltyMath.RoyaltyAmount: the corrected member errors where the source truncates. Validation keeps basis points at no more than 2500, so the two agree on every reachable input (`RoyaltyAmountAgreesWhenBounded`).
- CurrentPercentage: states the number shown, not the string `<number>%`; JavaScript's number-to-string conversion for non-integers is not modelled.
- NaN and Infinity: JavaScript numbers are reals, and NaN and ±Infinity are not values of the model. The `duration` state can hold +Infinity, which `loadedmetadata` reports for an unbounded stream (lines 172-174 and 183); the model does not represent it. `formatTime` on NaN and the division by a zero-width element (NaN or ±Infinity) are modelled only as "no number" (`None` or a thrown error).
- Player.NatToString: decimal digits for every size; JavaScript switches to exponent form at 1e21, far beyond any track length in seconds.
- The browser's audio element: clamping of `currentTime` to the media's range, buffering and decoding are not modelled; `Play(elapsed)` advances the position without bound.
- A `play()` promise rejection only logs (line 186); the model's audio always starts.
- The audio and metadata effects at lines 135-163: a new `audioSrc` creates a new audio element without pausing the old one, and the metadata fetch and `music-metadata` parsing are I/O; the player takes the parsed tags as input.
- React rendering, the animated background, volume, shuffle and repeat state (lines 126-128), and the track details panel: no behaviour beyond display.

## Findings

| source | as written | input that shows it | evidently intended | confidence | as-written member | corrected member |
|---|---|---|---|---|---|---|
| Contracts/programs/anchor-auction/src/lib.rs:1050 | the optional `user_auth` account must satisfy `now <= expires_at`, or the whole instruction fails with `AuthorizationExpired` | a cache just made by `create_user_auth_cache` (expiry 0) for a public track at time 1 | an expired cache is ignored and re-authorization proceeds, then refreshes it (lines 256-272) | not executed | Tracks.AuthorizePlaybackAsWrittenRejectsFreshCache | Tracks.AuthorizePlayback |
| Contracts/programs/anchor-auction/src/lib.rs:731-734 | a bid only requires the bidder to differ from the current highest bidder | the exhibitor bids after another bidder; the next bid skips the refund because the highest bidder is the exhibitor (line 126) | the exhibitor can never bid on their own auction | not executed | Auction.BidAsWrittenLosesExhibitorDeposit | Auction.BidSpec |
| Contracts/programs/anchor-auction/src/lib.rs:529-543 | each remaining account is checked for the payment mint only, not for its owner | the buyer passes their own token account of the payment mint as the artist's account | each recipient's account is owned by that recipient | not executed | Sale.RecipientAccountsAsWrittenIgnoresOwner | Sale.RecipientAccounts |
| Contracts/programs/anchor-auction/src/lib.rs:603-610 | the u128 quotient is cast `as u64`, which truncates, so the overflow error is unreachable | price u64::MAX at 20000 basis points (not reachable through validated configurations) | a quotient above u64::MAX is the `ProgramArithmeticOverflow` error, as in `calculate_recipient_share` | not executed | RoyaltyMath.RoyaltyAmountAsWrittenTruncates | RoyaltyMath.RoyaltyAmount |

/** Music tracks gated by NFT ownership: registering a track, the allow-list of NFT mints that
    may play it, the per-user authorization cache, and the playback-authorization rule. */
module Tracks {
  import opened Common

  /** At most this many mints may be authorized for one track. */
  const MAX_AUTHORIZED_COLLECTIONS: nat := 20

  /** How long, in seconds, a granted authorization stays cached. */
  const CACHE_LIFETIME: nat := 3600

  /** Stands for the Metaplex Token Metadata program's address
      `metaqbxxUerdq28cj1RbAWkYQm3ybzjb6a8bt518x1s`. */
  const METADATA_PROGRAM_ID: Pubkey := 0x6d657461

  // ---------------------------------------------------------------- accounts

  predicate NoDuplicates(s: seq<Pubkey>)
  {
    forall i, j :: 0 <= i < j < |s| ==> s[i] != s[j]
  }

  class MusicTrack {
    var authority: Pubkey
    var trackId: string
    var trackUri: string
    var previewUri: string
    var metadataUri: string
    var authorizedCollections: seq<Pubkey>
    var isPublic: bool

    /** The allow-list never holds a mint twice and never exceeds its cap. */
    ghost predicate Valid()
      reads this
    {
      NoDuplicates(authorizedCollections) && |authorizedCollections| <= MAX_AUTHORIZED_COLLECTIONS
    }

    constructor (authority: Pubkey, trackId: string, trackUri: string, previewUri: string,
                 metadataUri: string, isPublic: bool)
      ensures this.authority == authority && this.trackId == trackId && this.trackUri == trackUri
      ensures this.previewUri == previewUri && this.metadataUri == metadataUri
      ensures this.isPublic == isPublic && this.authorizedCollections == []
      ensures Valid()
    {
      this.authority := authority;
      this.trackId := trackId;
      this.trackUri := trackUri;
      this.previewUri := previewUri;
      this.metadataUri := metadataUri;
      this.isPublic := isPublic;
      this.authorizedCollections := [];
    }
  }

  /** The program-wide registry: its administrator and how many tracks were registered. */
  class AuthorizationRegistry {
    var authority: Pubkey
    var trackCount: u64
    var bump: u8

    /** A registry the first registration creates (`init_if_needed`): all fields zero. */
    constructor ()
      ensures authority == 0 && trackCount == 0 && bump == 0
    {
      authority := 0;
      trackCount := 0;
      bump := 0;
    }
  }

  /** A user's cached permission to play one track until `expiresAt` (a unix timestamp). */
  class UserAuthCache {
    var user: Pubkey
    var trackId: string
    var expiresAt: i64

    constructor (user: Pubkey, trackId: string, expiresAt: i64)
      ensures this.user == user && this.trackId == trackId && this.expiresAt == expiresAt
    {
      this.user := user;
      this.trackId := trackId;
      this.expiresAt := expiresAt;
    }
  }

  // ---------------------------------------------------------------- registering a track

  /** `register_music_track`: a new track with an empty allow-list. The first registration
      makes its signer the registry's authority. The count is incremented with
      `checked_add(1).unwrap()`, which panics at the largest `u64`; the instruction then fails
      and the registry keeps its old state. */
  method RegisterMusicTrack(registry: AuthorizationRegistry, authority: Pubkey, trackId: string,
                            trackUri: string, previewUri: string, metadataUri: string, isPublic: bool)
    returns (r: Result<MusicTrack>)
    modifies registry
    ensures r.Ok? <==> old(registry.trackCount) < U64_MAX
    ensures r.Err? ==> r.error == Panic
    ensures r.Ok? ==> && fresh(r.value) && r.value.Valid()
                      && r.value.authority == authority && r.value.trackId == trackId
                      && r.value.trackUri == trackUri && r.value.previewUri == previewUri
                      && r.value.metadataUri == metadataUri && r.value.isPublic == isPublic
                      && r.value.authorizedCollections == []
    ensures r.Ok? ==> && registry.trackCount == old(registry.trackCount) + 1
                      && registry.authority == (if old(registry.trackCount) == 0 then authority
                                                else old(registry.authority))
    ensures r.Err? ==> registry.trackCount == old(registry.trackCount) && registry.authority == old(registry.authority)
    ensures registry.bump == old(registry.bump)
  {
    if registry.trackCount == U64_MAX {
      return Err(Panic);
    }
    var track := new MusicTrack(authority, trackId, trackUri, previewUri, metadataUri, isPublic);
    if registry.trackCount == 0 {
      registry.authority := authority;
    }
    registry.trackCount := registry.trackCount + 1;
    return Ok(track);
  }

  // ---------------------------------------------------------------- the allow-list

  /** Adding a mint to a track's allow-list: a mint already listed leaves the list as it is;
      otherwise the mint is appended, unless the list is full (`InvalidMusicTrack`). */
  function AddCollection(collections: seq<Pubkey>, mint: Pubkey): (r: Result<seq<Pubkey>>)
    ensures r.Err? <==> mint !in collections && |collections| >= MAX_AUTHORIZED_COLLECTIONS
    ensures r.Err? ==> r.error == InvalidMusicTrack
    ensures r.Ok? ==> && mint in r.value
                      && (forall x :: x in r.value <==> x in collections || x == mint)
                      && collections <= r.value
                      && |r.value| <= |collections| + 1
    ensures r.Ok? && mint in collections ==> r.value == collections
  {
    if mint in collections then Ok(collections)
    else if |collections| >= MAX_AUTHORIZED_COLLECTIONS then Err(InvalidMusicTrack)
    else Ok(collections + [mint])
  }

  /** Adding the same mint twice is the same as adding it once. */
  lemma AddCollectionIdempotent(collections: seq<Pubkey>, mint: Pubkey)
    requires AddCollection(collections, mint).Ok?
    ensures AddCollection(AddCollection(collections, mint).value, mint) == AddCollection(collections, mint)
  {
  }

  /** Adding keeps the list free of duplicates and within its cap. */
  lemma AddCollectionPreservesValid(collections: seq<Pubkey>, mint: Pubkey)
    requires NoDuplicates(collections) && |collections| <= MAX_AUTHORIZED_COLLECTIONS
    requires AddCollection(collections, mint).Ok?
    ensures NoDuplicates(AddCollection(collections, mint).value)
    ensures |AddCollection(collections, mint).value| <= MAX_AUTHORIZED_COLLECTIONS
  {
    if mint !in collections {
      var added := collections + [mint];
      forall i, j | 0 <= i < j < |added|
        ensures added[i] != added[j]
      {
        if j == |collections| {
          assert added[i] == collections[i];
        }
      }
    }
  }

  /** `add_authorized_collection`: only the track's authority may change the allow-list
      (`UnauthorizedPlayback`, both as an account constraint and in the handler); nothing but
      the list changes. */
  method AddAuthorizedCollection(track: MusicTrack, signer: Pubkey, mint: Pubkey) returns (r: Outcome)
    modifies track
    ensures signer != old(track.authority) ==> r == Fail(UnauthorizedPlayback)
    ensures signer == old(track.authority) ==>
              var added := AddCollection(old(track.authorizedCollections), mint);
              if added.Ok? then r.Pass? && track.authorizedCollections == added.value
              else r == Fail(added.error)
    ensures r.Fail? ==> track.authorizedCollections == old(track.authorizedCollections)
    ensures track.authority == old(track.authority) && track.trackId == old(track.trackId)
    ensures track.trackUri == old(track.trackUri) && track.previewUri == old(track.previewUri)
    ensures track.metadataUri == old(track.metadataUri) && track.isPublic == old(track.isPublic)
    ensures old(track.Valid()) ==> track.Valid()
  {
    if track.authority != signer {
      return Fail(UnauthorizedPlayback);
    }
    var added := AddCollection(track.authorizedCollections, mint);
    if added.Err? {
      return Fail(added.error);
    }
    if track.Valid() {
      AddCollectionPreservesValid(track.authorizedCollections, mint);
    }
    track.authorizedCollections := added.value;
    return Pass;
  }

  // ---------------------------------------------------------------- the authorization cache

  /** `create_user_auth_cache`: an entry for the user and track that has already expired, to
      be filled in by the first successful verification. */
  method CreateUserAuthCache(user: Pubkey, trackId: string) returns (cache: UserAuthCache)
    ensures fresh(cache)
    ensures cache.user == user && cache.trackId == trackId && cache.expiresAt == 0
  {
    cache := new UserAuthCache(user, trackId, 0);
  }

  // ---------------------------------------------------------------- playback authorization

  /** The path along which playback was allowed. */
  datatype Grant = Cached | Public | Nft

  /** The accounts `verify_playback_authorization` receives besides the track and the cache.
      `expectedMetadataKey` is the metadata address derived from the metadata program and the
      NFT's mint; address derivation itself is not modelled. */
  datatype PlaybackAccounts = PlaybackAccounts(
    user: Pubkey,
    tokenAccount: Option<TokenAccount>,
    metadataAccount: Option<Pubkey>,
    metadataProgram: Pubkey,
    expectedMetadataKey: Pubkey)

  /** What the instruction reads from a cache account. */
  datatype CacheView = CacheView(user: Pubkey, trackId: string, expiresAt: i64)

  /** The NFT path's conditions: the genuine metadata program, a token account the user owns
      holding exactly one unfrozen token, the metadata account at its derived address, and the
      token's mint on the allow-list. */
  predicate NftQualifies(collections: seq<Pubkey>, accounts: PlaybackAccounts)
  {
    && accounts.metadataProgram == METADATA_PROGRAM_ID
    && accounts.tokenAccount.Some?
    && accounts.tokenAccount.value.owner == accounts.user
    && accounts.tokenAccount.value.amount == 1
    && !accounts.tokenAccount.value.isFrozen
    && accounts.metadataAccount == Some(accounts.expectedMetadataKey)
    && accounts.tokenAccount.value.mint in collections
  }

  /** Refreshing a cache writes `now + 3600`, an `i64` addition that panics on overflow. */
  predicate RefreshFits(now: i64)
  {
    now + CACHE_LIFETIME <= I64_MAX
  }

  /** Granting along a non-cached path: with a cache account the expiry is refreshed first. */
  function GrantRefreshing(grant: Grant, hasCache: bool, now: i64): (r: Result<Grant>)
    ensures r.Ok? <==> !hasCache || RefreshFits(now)
    ensures r.Ok? ==> r.value == grant
    ensures r.Err? ==> r.error == Panic
  {
    if hasCache && !RefreshFits(now) then Err(Panic) else Ok(grant)
  }

  /** The handler of `verify_playback_authorization`: an unexpired cache allows playback; then
      a public track; then the NFT checks, each failing with its own error; if no path allows
      it, `UnauthorizedPlayback`. `cacheExpiry` is the provided cache's expiry, if any. */
  function PlaybackBody(isPublic: bool, collections: seq<Pubkey>, cacheExpiry: Option<i64>,
                        accounts: PlaybackAccounts, now: i64): (r: Result<Grant>)
    ensures r.Ok? <==> || (cacheExpiry.Some? && cacheExpiry.value > now)
                       || ((isPublic || NftQualifies(collections, accounts))
                           && (cacheExpiry.Some? ==> RefreshFits(now)))
    ensures r == Ok(Cached) <==> cacheExpiry.Some? && cacheExpiry.value > now
    ensures r == Ok(Public) <==> && !(cacheExpiry.Some? && cacheExpiry.value > now) && isPublic
                                 && (cacheExpiry.Some? ==> RefreshFits(now))
    ensures r.Err? ==> r.error in {InvalidMetadataProgram, InvalidNFTOwnership, InvalidNFTMetadata,
                                   UnauthorizedPlayback, Panic}
    ensures r.Err? && r.error == InvalidMetadataProgram ==> accounts.metadataProgram != METADATA_PROGRAM_ID
    ensures r.Err? && r.error == InvalidNFTOwnership ==>
              accounts.tokenAccount.Some?
              && (|| accounts.tokenAccount.value.owner != accounts.user
                  || accounts.tokenAccount.value.amount != 1
                  || accounts.tokenAccount.value.isFrozen)
    ensures r.Err? && r.error == InvalidNFTMetadata ==>
              accounts.metadataAccount.Some? && accounts.metadataAccount != Some(accounts.expectedMetadataKey)
  {
    var hasCache := cacheExpiry.Some?;
    if hasCache && cacheExpiry.value > now then Ok(Cached)
    else if isPublic then GrantRefreshing(Public, hasCache, now)
    else if accounts.metadataProgram != METADATA_PROGRAM_ID then Err(InvalidMetadataProgram)
    else if accounts.tokenAccount.None? then Err(UnauthorizedPlayback)
    else
      var token := accounts.tokenAccount.value;
      if token.owner != accounts.user then Err(InvalidNFTOwnership)
      else if token.amount != 1 then Err(InvalidNFTOwnership)
      else if token.isFrozen then Err(InvalidNFTOwnership)
      else if accounts.metadataAccount.None? then Err(UnauthorizedPlayback)
      else if accounts.metadataAccount.value != accounts.expectedMetadataKey then Err(InvalidNFTMetadata)
      else if token.mint in collections then GrantRefreshing(Nft, hasCache, now)
      else Err(UnauthorizedPlayback)
  }

  /** The cache account's first constraint: it belongs to this user and this track. */
  predicate CacheMatches(cache: CacheView, user: Pubkey, trackId: string)
  {
    cache.user == user && cache.trackId == trackId
  }

  /** The error for a cache that fails `CacheMatches`. A cache stores the user whose key its
      address is derived from, so a cache of another user is not at this user's address and
      fails the `seeds` check first; a cache at the right address whose stored `track_id`
      differs fails the raw constraint. */
  function CacheMismatch(cache: CacheView, user: Pubkey): (e: ErrorCode)
    ensures e == ConstraintSeeds <==> cache.user != user
    ensures e == ConstraintRaw <==> cache.user == user
  {
    if cache.user != user then ConstraintSeeds else ConstraintRaw
  }

  /** `verify_playback_authorization` exactly as written: besides the ownership constraint,
      the cache account carries `now <= expires_at @ AuthorizationExpired`, checked before the
      handler runs. A cache account of another user is refused by its address derivation
      (`ConstraintSeeds`); one derived from this user and track whose stored `track_id`
      differs, which `create_user_auth_cache` makes possible by storing its argument rather
      than the track's id, fails the raw constraint (`ConstraintRaw`). */
  function AuthorizePlaybackAsWritten(trackId: string, isPublic: bool, collections: seq<Pubkey>,
                                      cache: Option<CacheView>, accounts: PlaybackAccounts, now: i64)
    : (r: Result<Grant>)
    ensures cache.Some? && cache.value.user != accounts.user ==> r == Err(ConstraintSeeds)
    ensures cache.Some? && cache.value.user == accounts.user && cache.value.trackId != trackId
            ==> r == Err(ConstraintRaw)
    ensures cache.Some? && CacheMatches(cache.value, accounts.user, trackId) && now > cache.value.expiresAt
            ==> r == Err(AuthorizationExpired)
    ensures cache.None? || CacheMatches(cache.value, accounts.user, trackId) ==>
              (r.Ok? <==> && (cache.Some? ==> now <= cache.value.expiresAt)
                          && (|| (cache.Some? && cache.value.expiresAt > now)
                              || ((isPublic || NftQualifies(collections, accounts))
                                  && (cache.Some? ==> RefreshFits(now)))))
    ensures r == Ok(Cached) <==> cache.Some? && CacheMatches(cache.value, accounts.user, trackId)
                                 && cache.value.expiresAt > now
  {
    if cache.Some? && !CacheMatches(cache.value, accounts.user, trackId) then Err(CacheMismatch(cache.value, accounts.user))
    else if cache.Some? && now > cache.value.expiresAt then Err(AuthorizationExpired)
    else PlaybackBody(isPublic, collections, if cache.Some? then Some(cache.value.expiresAt) else None, accounts, now)
  }

  /** A fresh cache (expiry 0) on a public track: the written constraint refuses playback that
      the handler would have allowed and cached. */
  lemma AuthorizePlaybackAsWrittenRejectsFreshCache()
    ensures var accounts := PlaybackAccounts(7, None, None, METADATA_PROGRAM_ID, 0);
            var newCache := Some(CacheView(7, "track", 0));
            && AuthorizePlaybackAsWritten("track", true, [], newCache, accounts, 1) == Err(AuthorizationExpired)
            && AuthorizePlayback("track", true, [], newCache, accounts, 1) == Ok(Public)
  {
  }

  /** With a cache account, the written version grants along the public or the NFT path, and
      so refreshes the cache, only at the very second the cache expires: a cache can be
      renewed once it is in use, but one created with expiry 0 is never usable after time 0. */
  lemma AuthorizePlaybackAsWrittenRefreshesOnlyAtExpiry(trackId: string, isPublic: bool, collections: seq<Pubkey>,
                                                        cache: CacheView, accounts: PlaybackAccounts, now: i64)
    requires AuthorizePlaybackAsWritten(trackId, isPublic, collections, Some(cache), accounts, now).Ok?
    requires AuthorizePlaybackAsWritten(trackId, isPublic, collections, Some(cache), accounts, now) != Ok(Cached)
    ensures cache.expiresAt == now
  {
  }

  /** `verify_playback_authorization` as its handler intends: an expired cache is no reason to
      fail, verification just goes on along the other paths. */
  function AuthorizePlayback(trackId: string, isPublic: bool, collections: seq<Pubkey>,
                             cache: Option<CacheView>, accounts: PlaybackAccounts, now: i64)
    : (r: Result<Grant>)
    ensures cache.Some? && cache.value.user != accounts.user ==> r == Err(ConstraintSeeds)
    ensures cache.Some? && cache.value.user == accounts.user && cache.value.trackId != trackId
            ==> r == Err(ConstraintRaw)
    ensures cache.None? || CacheMatches(cache.value, accounts.user, trackId) ==>
              (r.Ok? <==> || (cache.Some? && cache.value.expiresAt > now)
                          || ((isPublic || NftQualifies(collections, accounts))
                              && (cache.Some? ==> RefreshFits(now))))
    ensures r.Err? ==> r.error != AuthorizationExpired
  {
    if cache.Some? && !CacheMatches(cache.value, accounts.user, trackId) then Err(CacheMismatch(cache.value, accounts.user))
    else PlaybackBody(isPublic, collections, if cache.Some? then Some(cache.value.expiresAt) else None, accounts, now)
  }

  /** The two versions differ only on a matching cache that has expired: there the written one
      fails outright. */
  lemma AuthorizePlaybackVersionsAgree(trackId: string, isPublic: bool, collections: seq<Pubkey>,
                                       cache: Option<CacheView>, accounts: PlaybackAccounts, now: i64)
    requires cache.None? || now <= cache.value.expiresAt
    ensures AuthorizePlaybackAsWritten(trackId, isPublic, collections, cache, accounts, now)
            == AuthorizePlayback(trackId, isPublic, collections, cache, accounts, now)
  {
  }

  /** Once refreshed at `now`, the cache allows playback on its own at every later moment
      before `now + 3600`, whatever the track and the other accounts. */
  lemma RefreshedCacheGrants(trackId: string, isPublic: bool, collections: seq<Pubkey>,
                             user: Pubkey, accounts: PlaybackAccounts, now: i64, later: i64)
    requires RefreshFits(now) && later < now + CACHE_LIFETIME && accounts.user == user
    ensures AuthorizePlayback(trackId, isPublic, collections, Some(CacheView(user, trackId, now + CACHE_LIFETIME)),
                              accounts, later) == Ok(Cached)
    ensures AuthorizePlaybackAsWritten(trackId, isPublic, collections,
                                       Some(CacheView(user, trackId, now + CACHE_LIFETIME)), accounts, later)
            == Ok(Cached)
  {
  }

  /** `verify_playback_authorization` on the accounts, with the constraints as written: a
      grant along the public or the NFT path refreshes a provided cache to expire an hour from
      now; nothing else is written, and nothing at all when the instruction fails. */
  method VerifyPlaybackAuthorization(track: MusicTrack, cache: UserAuthCache?, accounts: PlaybackAccounts, now: i64)
    returns (r: Result<Grant>)
    modifies cache
    ensures r == AuthorizePlaybackAsWritten(track.trackId, track.isPublic, track.authorizedCollections,
                                            if cache == null then None
                                            else Some(CacheView(old(cache.user), old(cache.trackId),
                                                                old(cache.expiresAt))),
                                            accounts, now)
    ensures cache != null && r.Ok? && r.value != Cached ==>
              cache.expiresAt == now + CACHE_LIFETIME && cache.user == accounts.user
              && cache.trackId == track.trackId
    ensures cache != null && (r.Err? || r.value == Cached) ==>
              cache.expiresAt == old(cache.expiresAt) && cache.user == old(cache.user)
              && cache.trackId == old(cache.trackId)
  {
    var view := if cache == null then None else Some(CacheView(cache.user, cache.trackId, cache.expiresAt));
    r := AuthorizePlaybackAsWritten(track.trackId, track.isPublic, track.authorizedCollections, view, accounts, now);
    if cache != null && r.Ok? && r.value != Cached {
      cache.user := accounts.user;
      cache.trackId := track.trackId;
      cache.expiresAt := now + CACHE_LIFETIME;
    }
  }
}

/** Shared vocabulary of the on-chain program: fixed-width integers, account keys, the error
    codes an instruction can fail with, failure-compatible results, the token-program calls an
    instruction issues, and the sum of a map's values. */
module Common {

  // ---------------------------------------------------------------- fixed-width integers

  const U16_MAX: int := 0xFFFF
  const U64_MAX: int := 0xFFFF_FFFF_FFFF_FFFF
  const I64_MIN: int := -0x8000_0000_0000_0000
  const I64_MAX: int := 0x7FFF_FFFF_FFFF_FFFF

  type u8 = x: int | 0 <= x < 0x100
  type u16 = x: int | 0 <= x <= U16_MAX
  type u64 = x: int | 0 <= x <= U64_MAX
  type i64 = x: int | I64_MIN <= x <= I64_MAX

  /** Rust's `x as i64` for a `u64`: the same 64 bits read as two's complement. */
  function U64AsI64(x: u64): (r: i64)
    ensures r >= 0 <==> x <= I64_MAX
    ensures (r - x) % 0x1_0000_0000_0000_0000 == 0
  {
    if x <= I64_MAX then x else x - 0x1_0000_0000_0000_0000
  }

  // ---------------------------------------------------------------- keys

  /** A 32-byte account address. The model only ever compares keys for equality, so any
      value with equality serves; program-derived addresses are given as constants or inputs. */
  type Pubkey = nat

  // ---------------------------------------------------------------- errors

  /** The program's own `ErrorCode` variants, followed by the failures that come from the
      framework, the runtime or the token program. */
  datatype ErrorCode =
    | InvalidNFTOwnership
    | InvalidNFTMetadata
    | UnauthorizedPlayback
    | InvalidMusicTrack
    | InvalidMetadataProgram
    | AuthorizationExpired
    | InvalidRoyaltyConfig
    | RoyaltyBasisPointsExceedMax
    | TooManyRoyaltyRecipients
    | RoyaltyBasisPointsMismatch
    | UnauthorizedRoyaltyUpdate
    | ImmutableRoyaltyConfig
    | InvalidTokenAccount
    | ArithmeticOverflow
    | InsufficientFunds
    | SalePriceTooLow
    | InvalidRecipientAccount
    | MissingExpectedAccount
    | TokenMintMismatch
      // an `#[account(constraint = ...)]` without its own error code
    | ConstraintRaw
      // an account that is not at the address its `seeds = [...]` derive; checked before
      // the account's `constraint`s
    | ConstraintSeeds
      // an account with no data owned by this program, as `close = ...` leaves it, is loaded
    | AccountNotInitialized
      // a remaining account that does not deserialize as a token account
    | AccountDidNotDeserialize
      // an account whose new contents do not fit the space it was created with
    | AccountDidNotSerialize
      // `ProgramError::ArithmeticOverflow`, distinct from the program's own code above
    | ProgramArithmeticOverflow
      // an unchecked `+`, `.add`, `.sum()` that overflows, or an `unwrap` of `None`
    | Panic
      // the token program refuses a transfer larger than the source balance
    | TokenInsufficientFunds
      // the token program refuses a transfer between accounts of different mints
    | TokenProgramMintMismatch

  datatype Result<+T> = Ok(value: T) | Err(error: ErrorCode) {
    predicate IsFailure() { Err? }
    function PropagateFailure<U>(): Result<U>
      requires Err?
    {
      Err(error)
    }
    function Extract(): T
      requires Ok?
    {
      value
    }
  }

  /** The result of an instruction that returns `Result<()>`. */
  datatype Outcome = Pass | Fail(error: ErrorCode) {
    predicate IsFailure() { Fail? }
    function PropagateFailure(): Outcome
      requires Fail?
    {
      this
    }
  }

  datatype Option<+T> = None | Some(value: T)

  // ---------------------------------------------------------------- token accounts

  /** What an instruction reads from an SPL token account. */
  datatype TokenAccount = TokenAccount(key: Pubkey, mint: Pubkey, owner: Pubkey, amount: u64, isFrozen: bool)

  /** A call into the token program, recorded rather than executed. */
  datatype TokenOp =
    | Transfer(from: Pubkey, to: Pubkey, amount: u64)
    | SetOwner(account: Pubkey, newOwner: Pubkey)
    | CloseAccount(account: Pubkey, destination: Pubkey)

  /** Total amount moved by the transfers in `ops`. */
  function TransferTotal(ops: seq<TokenOp>): nat
  {
    if ops == [] then 0
    else TransferTotal(ops[..|ops| - 1]) + (if ops[|ops| - 1].Transfer? then ops[|ops| - 1].amount else 0)
  }

  lemma TransferTotalAppend(ops: seq<TokenOp>, more: seq<TokenOp>)
    ensures TransferTotal(ops + more) == TransferTotal(ops) + TransferTotal(more)
    decreases |more|
  {
    if more == [] {
      assert ops + more == ops;
    } else {
      var init := more[..|more| - 1];
      assert (ops + more)[..|ops + more| - 1] == ops + init;
      TransferTotalAppend(ops, init);
    }
  }

  // ---------------------------------------------------------------- sums over maps

  ghost function PickKey<K>(m: map<K, nat>): (k: K)
    requires m != map[]
    ensures k in m
  {
    assert exists k :: k in m by {
      var k :| k in m.Keys;
    }
    var k :| k in m; k
  }

  lemma RemoveKeyShrinks<K>(m: map<K, nat>, k: K)
    requires k in m
    ensures |m - {k}| == |m| - 1
  {
    assert (m - {k}).Keys == m.Keys - {k};
  }

  /** The sum of a map's values, independent of any iteration order. */
  ghost function MapSum<K>(m: map<K, nat>): nat
    decreases |m|
  {
    if m == map[] then 0
    else
      var k := PickKey(m);
      RemoveKeyShrinks(m, k);
      m[k] + MapSum(m - {k})
  }

  /** Any key may be taken out first: the sum does not depend on the order of the keys. */
  lemma {:induction false} MapSumRemove<K>(m: map<K, nat>, k: K)
    requires k in m
    ensures MapSum(m) == m[k] + MapSum(m - {k})
    decreases |m|
  {
    var j := PickKey(m);
    if j != k {
      RemoveKeyShrinks(m, j);
      RemoveKeyShrinks(m, k);
      MapSumRemove(m - {j}, k);
      MapSumRemove(m - {k}, j);
      assert m - {j} - {k} == m - {k} - {j};
    }
  }

  lemma MapSumUpdate<K>(m: map<K, nat>, k: K, v: nat)
    ensures MapSum(m[k := v]) + (if k in m then m[k] else 0) == MapSum(m) + v
  {
    MapSumRemove(m[k := v], k);
    assert m[k := v] - {k} == m - {k};
    if k in m {
      MapSumRemove(m, k);
    } else {
      assert m - {k} == m;
    }
  }

  /** Adding `v` to one entry (a missing entry counts as zero) adds `v` to the sum. */
  lemma MapSumAdd<K>(m: map<K, nat>, k: K, v: nat)
    ensures MapSum(m[k := (if k in m then m[k] else 0) + v]) == MapSum(m) + v
  {
    MapSumUpdate(m, k, (if k in m then m[k] else 0) + v);
  }

  lemma MapSumEntry<K>(m: map<K, nat>, k: K)
    requires k in m
    ensures m[k] <= MapSum(m)
  {
    MapSumRemove(m, k);
  }
}

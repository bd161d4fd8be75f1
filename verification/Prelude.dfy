/** Vocabulary shared by every module: Option and Result, the contract's error codes,
    Rust's fixed-width integers and their arithmetic. */
module Prelude {

  datatype Option<+T> = None | Some(value: T)

  /** The error codes the modelled entry points can return. `HostAbort` stands for every way
      the host stops a call without an error code of the contract: a missing signature, a token
      transfer without cover, an unchecked integer overflow. Like an error it undoes all writes. */
  datatype Error =
    | HostAbort
    | Overflow
    | NotInitialized
    | AlreadyInitialized
    | InternalError
    | ContractPaused
    | Unauthorized
    | NotAllowed
    | NoPendingAdmin
    | InvalidRecipient
    | NotOperator
    | SameAdmin
    | OperatorCapReached
    | ZeroAmount
    | ExceedsLimit
    | DailyLimitExceeded
    | ExceedsFiatLimit
    | ReferenceTooLong
    | CooldownActive
    | AntiSandwichDelayActive
    | TokenNotWhitelisted
    | AddressDenied
    | CircuitBreakerActive
    | InvalidMemoHash
    | FeeWithdrawalExceedsBalance
    | InvalidAmount
    | SelfReferentialAddress
    | InsufficientFunds
    | NoFeesToWithdraw
    | RequestNotFound
    | WithdrawalLocked
    | ActionNotQueued
    | ActionNotReady
    | OracleNotSet
    | OraclePriceInvalid
    | SlippageTooHigh
    | WithdrawalQuotaExceeded
    | MigrationAlreadyComplete
    | InvalidNonce
    | StaleNonce
    | BelowMinimum
    | InvalidThreshold
    | DuplicateSigner
    | SignerNotFound
    | ProposalNotFound
    | AlreadyApproved
    | ProposalAlreadyExecuted
    | ThresholdNotMet
    | MaxSignersReached

  /** Failure-compatible, so that `:-` reads like Rust's `?`. */
  datatype Result<+T> = Ok(value: T) | Err(error: Error) {
    predicate IsFailure() { Err? }
    function PropagateFailure<U>(): Result<U>
      requires Err?
    {
      Err(error)
    }
    function Extract(): T
      requires Ok?
    {
      value
    }
  }

  datatype Outcome = Pass | Fail(error: Error) {
    predicate IsFailure() { Fail? }
    function PropagateFailure<U>(): Result<U>
      requires Fail?
    {
      Err(error)
    }
  }

  function Need(condition: bool, error: Error): Outcome {
    if condition then Pass else Fail(error)
  }

  datatype Address = Address(id: nat)

  const I128_MAX: int := 0x7FFF_FFFF_FFFF_FFFF_FFFF_FFFF_FFFF_FFFF
  const I128_MIN: int := -I128_MAX - 1
  const U64_MAX: int := 0xFFFF_FFFF_FFFF_FFFF
  const U32_MAX: int := 0xFFFF_FFFF

  type I128 = x: int | I128_MIN <= x <= I128_MAX
  type U32 = x: int | 0 <= x <= U32_MAX

  predicate FitsI128(x: int) { I128_MIN <= x <= I128_MAX }

  /** `i128` arithmetic that panics when the result does not fit (release builds keep overflow checks). */
  function PlainI128(x: int): Result<I128> {
    if FitsI128(x) then Ok(x) else Err(HostAbort)
  }

  function SaturateI128(x: int): I128 {
    if x < I128_MIN then I128_MIN else if x > I128_MAX then I128_MAX else x
  }

  function SaturateU32(x: nat): U32 {
    if x > U32_MAX then U32_MAX else x
  }

  /** Rust's `/`: truncates toward zero, where Dafny's `/` is Euclidean. */
  function RustDiv(a: int, b: int): int
    requires b != 0
  {
    if a >= 0 then a / b
    else -((-a) / b)
  }

  /** Rust's `%`: takes the sign of the dividend. */
  function RustRem(a: int, b: int): int
    requires b != 0
  {
    if a >= 0 then a % b else -((-a) % b)
  }

  function Min(a: int, b: int): int { if a < b then a else b }
  function Max(a: int, b: int): int { if a < b then b else a }

  /** A storage read that falls back to a default: `get(key).unwrap_or(default)`. */
  function GetOr<K, V>(m: map<K, V>, k: K, default: V): V {
    if k in m then m[k] else default
  }

  function Find<K, V>(m: map<K, V>, k: K): Option<V> {
    if k in m then Some(m[k]) else None
  }
}

/** Optional values and results, used in place of the source's Option and Result. */
module Wrappers {

  datatype Option<+T> = None | Some(value: T)

  datatype Result<+T, +E> = Ok(value: T) | Err(error: E)
}

/** The doubling, capped waits between connect attempts. */
module Backoff {
  const MAX_BACKOFF_SECS: nat := 60

  function CappedDouble(backoff: nat, cap: nat): nat {
    if backoff * 2 <= cap then backoff * 2 else cap
  }

  function Pow2(n: nat): nat {
    if n == 0 then 1 else 2 * Pow2(n - 1)
  }
}

/** Steam's result codes, those that are branched on. */
module EResult {
  const OK: int := 1
  const FAIL: int := 2
  const NO_CONNECTION: int := 3
  const INVALID_PASSWORD: int := 5
  const BUSY: int := 10
  const TIMEOUT: int := 16
  const SERVICE_UNAVAILABLE: int := 20
  const TRY_ANOTHER_CM: int := 48
  const ACCOUNT_LOGON_DENIED: int := 63
  const RATE_LIMIT_EXCEEDED: int := 84
  const ACCOUNT_LOGIN_DENIED_NEED_TWO_FACTOR: int := 85
  const ACCOUNT_LOGIN_DENIED_THROTTLE: int := 87
  const TWO_FACTOR_CODE_MISMATCH: int := 88
}

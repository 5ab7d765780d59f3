/**
 * The retry configuration (`RetryConfig` in src/response.rs): the three
 * knobs the rate-limit backoff depends on, and their defaults.
 */
module Response {
  import opened Ints

  datatype RetryConfig = RetryConfig(maxRetries: Uint32, baseDelayMs: Uint64, maxDelayMs: Uint64)

  /**
   * `RetryConfig::default()`: three retries, a one-second base delay and a
   * five-second cap, so the base never exceeds the cap.
   */
  function DefaultRetryConfig(): (c: RetryConfig)
    ensures c.maxRetries == 3 && c.baseDelayMs == 1000 && c.maxDelayMs == 5000
    ensures c.baseDelayMs <= c.maxDelayMs
  {
    RetryConfig(3, 1000, 5000)
  }
}

/**
 The gate in front of fog alerts: a configuration sends only when it is
 enabled, the fog probability reaches its threshold and, for the `daily`
 frequency, at least one whole day has passed since the previous alert.

 The clock is a parameter: `now` and `lastNotifiedAt` are millisecond
 timestamps (`Date.getTime()`).
 */
module Notification {
  import opened Common

  datatype Frequency = Daily | Always

  datatype NotificationConfig = NotificationConfig(enabled: bool, threshold: int, frequency: Frequency)

  const MillisecondsPerDay: int := 1000 * 60 * 60 * 24

  /** `Math.floor((now - last) / MillisecondsPerDay)`: whole days elapsed, negative when `now` is earlier. */
  function DaysBetween(last: int, now: int): (days: int)
    ensures days * MillisecondsPerDay <= now - last < (days + 1) * MillisecondsPerDay
    ensures days < 1 <==> now - last < MillisecondsPerDay
  {
    // Dafny's integer division rounds down for a positive divisor, as Math.floor does.
    (now - last) / MillisecondsPerDay
  }

  function ShouldSendNotification(
    config: NotificationConfig, fogProbability: real, lastNotifiedAt: Option<int>, now: int): (send: bool)
    ensures send <==>
      && config.enabled
      && fogProbability >= config.threshold as real
      && (config.frequency.Always? || lastNotifiedAt.None?
          || now - lastNotifiedAt.value >= MillisecondsPerDay)
  {
    if !config.enabled then false
    else if fogProbability < config.threshold as real then false
    else if config.frequency.Daily? && lastNotifiedAt.Some? then
      // a daily configuration waits until at least one whole day has elapsed
      !(DaysBetween(lastNotifiedAt.value, now) < 1)
    else true
  }

  /** A disabled configuration never sends. */
  lemma DisabledNeverSends(config: NotificationConfig, p: real, last: Option<int>, now: int)
    requires !config.enabled
    ensures !ShouldSendNotification(config, p, last, now)
  {
  }

  /** Below the threshold nothing is sent; at the threshold the check passes. */
  lemma ThresholdIsInclusive(config: NotificationConfig, p: real, last: Option<int>, now: int)
    ensures p < config.threshold as real ==> !ShouldSendNotification(config, p, last, now)
    ensures config.enabled && p == config.threshold as real && config.frequency.Always?
      ==> ShouldSendNotification(config, p, last, now)
  {
  }

  /** Raising the probability never withdraws an alert. */
  lemma MonotoneInProbability(config: NotificationConfig, p: real, q: real, last: Option<int>, now: int)
    requires p <= q
    requires ShouldSendNotification(config, p, last, now)
    ensures ShouldSendNotification(config, q, last, now)
  {
  }

  /** With frequency `always` the timestamps play no part. */
  lemma AlwaysIgnoresTimestamps(
    config: NotificationConfig, p: real, last1: Option<int>, now1: int, last2: Option<int>, now2: int)
    requires config.frequency.Always?
    ensures ShouldSendNotification(config, p, last1, now1) == ShouldSendNotification(config, p, last2, now2)
  {
  }

  /** A `daily` configuration that has never sent sends once enabled and at threshold. */
  lemma DailyFirstAlertSends(config: NotificationConfig, p: real, now: int)
    requires config.enabled && config.frequency.Daily? && p >= config.threshold as real
    ensures ShouldSendNotification(config, p, None, now)
  {
  }

  /** A `daily` configuration sends again exactly when a full day has passed; a clock behind the last alert never sends. */
  lemma DailyWaitsOneDay(config: NotificationConfig, p: real, last: int, now: int)
    requires config.enabled && config.frequency.Daily? && p >= config.threshold as real
    ensures ShouldSendNotification(config, p, Some(last), now) <==> now - last >= 86_400_000
    ensures now < last ==> !ShouldSendNotification(config, p, Some(last), now)
  {
  }
}

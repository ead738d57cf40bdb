/** The settings a service starts with, and the bound they must keep. */
module Config {
  import opened Types
  import opened Counting
  import S = Store

  datatype Settings = Settings(retention: Time, interval: Time, batchSize: int, concurrency: int)

  datatype Fault = ShortRetention | BadInterval | BadBatchSize | BadConcurrency

  const SWEEP_INTERVAL_CEILING: Time := 5 * MINUTE

  function Validate(settings: Settings): Option<Fault> {
    if settings.retention < UNKNOWN_OUTCOME_HOLD then Some(ShortRetention)
    else if settings.interval <= 0 || settings.interval > SWEEP_INTERVAL_CEILING then Some(BadInterval)
    else if settings.batchSize < 1 || settings.batchSize > 100 then Some(BadBatchSize)
    else if settings.concurrency < 1 then Some(BadConcurrency)
    else None
  }

  /** What a service may start with. */
  lemma ValidExactly(settings: Settings)
    ensures Validate(settings).None? <==>
      && settings.retention >= 15 * MINUTE
      && 0 < settings.interval <= 5 * MINUTE
      && 1 <= settings.batchSize <= 100
      && settings.concurrency >= 1
  {
  }

  /** The purge may take the row while it still holds its owner's slot. */
  ghost predicate PurgedInHold(r: Generation, retention: Time, now: Time) {
    && S.WellFormed(r) && r.settledAt.Some? && r.expiresAt == Some(r.settledAt.value + retention)
    && S.Expired(r, now) && CountsLive(r, r.key.owner, r.key.purpose, now)
  }

  /** No row is ever purged while it counts under a retention that passes, and one can be under any that is refused,
    * but for the one that falls a single instant short. */
  lemma RetentionOutlastsHold(settings: Settings, key: Identity)
    ensures (exists r, now :: PurgedInHold(r, settings.retention, now)) <==>
      Validate(settings) == Some(ShortRetention) && settings.retention != 15 * MINUTE - 1
  {
    if settings.retention < UNKNOWN_OUTCOME_HOLD - 1 {
      var request := S.SettleRequest(1, Some(0), None, Failed, Some(OutcomeIsUnknown), Some(OutcomeUnknown), true);
      var r := S.SettledRow(S.NewRow(1, key, 0), request, 0, settings.retention);
      assert PurgedInHold(r, settings.retention, settings.retention + 1);
    }
  }
}

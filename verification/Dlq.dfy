/**
 The dead letter queue envelope. The payload is the failed message verbatim,
 which is what makes a quarantined record replayable.
 */
module Dlq {
  import opened Events

  datatype Stage = StageProducer | StageCassandraSink | StageParse | StageLate

  datatype DlqRecord = DlqRecord(originalPayload: Message, failureReason: string, stage: Stage,
                                 retryCount: int, replayCount: int)

  const MAX_REASON := 2000

  /** `build`; no caller passes a replay count, so it is the default 0. */
  function BuildRecord(payload: Message, reason: string, stage: Stage, retryCount: int): (r: DlqRecord)
    ensures r.originalPayload == payload && r.replayCount == 0
    ensures r.stage == stage && r.retryCount == retryCount
    ensures r.failureReason == if |reason| > 2000 then reason[..2000] else reason
  {
    DlqRecord(payload, if |reason| > MAX_REASON then reason[..MAX_REASON] else reason, stage, retryCount, 0)
  }

  /** The queue holds this message, quarantined at this stage. */
  predicate InDlq(dlq: seq<DlqRecord>, m: Message, s: Stage) {
    exists r <- dlq :: r.originalPayload == m && r.stage == s
  }
}

/** The daemon's timing configuration. */
module Configs {

  const U64_MAX: nat := 0xFFFF_FFFF_FFFF_FFFF
  const I32_MAX: nat := 0x7FFF_FFFF
  const DAY: nat := 24 * 3600

  /** Retention of the stream that `agentdctl init` creates, in seconds. */
  const STREAM_MAX_AGE: nat := 7 * 24 * 3600

  datatype ConfigError = ZeroTtl | ZeroEventBytes | EventBytesTooLarge | ProgressNotBeforeAckWait

  datatype Checked = Ok | Err(error: ConfigError)

  datatype DaemonConfig = DaemonConfig(maxEventBytes: nat, dedupTtlDays: nat, ackWaitSecs: nat, ackProgressSecs: nat)
  {
    function Validate(): (r: Checked)
      ensures r.Ok? <==> dedupTtlDays >= 1 && 1 <= maxEventBytes <= I32_MAX && ackProgressSecs < ackWaitSecs
    {
      if dedupTtlDays == 0 then Err(ZeroTtl)
      else if maxEventBytes == 0 then Err(ZeroEventBytes)
      else if maxEventBytes > I32_MAX then Err(EventBytesTooLarge)
      else if ackProgressSecs >= ackWaitSecs then Err(ProgressNotBeforeAckWait)
      else Ok
    }

    /** The retention of completed records, in seconds, saturating at 64 bits. */
    function DedupTtl(): nat {
      if dedupTtlDays * DAY > U64_MAX then U64_MAX else dedupTtlDays * DAY
    }
  }

  /** Every configured day counts, as long as the seconds fit in 64 bits; a larger
      number of days is as good as any. */
  lemma TtlInDays(c: DaemonConfig)
    ensures c.dedupTtlDays <= 213503982334601 ==> c.DedupTtl() == c.dedupTtlDays * 86400
    ensures c.dedupTtlDays > 213503982334601 ==> c.DedupTtl() == 0xFFFF_FFFF_FFFF_FFFF
  {
  }

  /** Retention covers the stream exactly from seven days on; saturation never
      makes it too short. */
  lemma TtlCoversStream(c: DaemonConfig)
    ensures c.DedupTtl() >= STREAM_MAX_AGE <==> c.dedupTtlDays >= 7
    ensures c.DedupTtl() <= U64_MAX
  {
  }
}

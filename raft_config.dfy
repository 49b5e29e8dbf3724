/** The default Raft timing and batching configuration: a mutable record of
    parameters whose election timeout is derived from the heartbeat and some of
    whose parameters are fixed. */
module RaftConfig {
  import opened Concepts

  /** A `FiniteDuration`, measured in milliseconds. */
  datatype FiniteDuration = FiniteDuration(millis: nat) {
    /** `$times(factor)`: this duration scaled by `factor`. */
    function Times(factor: nat): FiniteDuration {
      FiniteDuration(millis * factor)
    }
  }

  const SNAPSHOT_BATCH_COUNT: Long := 20000
  const JOURNAL_RECOVERY_LOG_BATCH_SIZE: Int := 1000
  /** The maximum election time variance. */
  const ELECTION_TIME_MAX_VARIANCE: Int := 100
  /** 2 MB (2048 * 1000 bytes). */
  const SNAPSHOT_CHUNK_SIZE: Int := 2048 * 1000
  /** The default interval between heartbeats sent to the followers. */
  const HEART_BEAT_INTERVAL: FiniteDuration := FiniteDuration(100)

  class DefaultConfigParams {
    var heartBeatInterval: FiniteDuration
    var snapshotBatchCount: Long
    var journalRecoveryLogBatchSize: Int

    /** A configuration holding the defaults. */
    constructor ()
      ensures HeartBeatInterval() == FiniteDuration(100)
      ensures SnapshotBatchCount() == 20000
      ensures JournalRecoveryLogBatchSize() == 1000
      ensures ElectionTimeOutInterval() == FiniteDuration(200)
    {
      heartBeatInterval := HEART_BEAT_INTERVAL;
      snapshotBatchCount := SNAPSHOT_BATCH_COUNT;
      journalRecoveryLogBatchSize := JOURNAL_RECOVERY_LOG_BATCH_SIZE;
    }

    /** Replaces the heartbeat; the election timeout follows it. */
    method SetHeartBeatInterval(interval: FiniteDuration)
      modifies this`heartBeatInterval
      ensures HeartBeatInterval() == interval
      ensures ElectionTimeOutInterval().millis == 2 * interval.millis
      ensures SnapshotBatchCount() == old(SnapshotBatchCount())
      ensures JournalRecoveryLogBatchSize() == old(JournalRecoveryLogBatchSize())
    {
      heartBeatInterval := interval;
    }

    method SetSnapshotBatchCount(count: Long)
      modifies this`snapshotBatchCount
      ensures SnapshotBatchCount() == count
      ensures HeartBeatInterval() == old(HeartBeatInterval())
      ensures ElectionTimeOutInterval() == old(ElectionTimeOutInterval())
      ensures JournalRecoveryLogBatchSize() == old(JournalRecoveryLogBatchSize())
    {
      snapshotBatchCount := count;
    }

    method SetJournalRecoveryLogBatchSize(size: Int)
      modifies this`journalRecoveryLogBatchSize
      ensures JournalRecoveryLogBatchSize() == size
      ensures HeartBeatInterval() == old(HeartBeatInterval())
      ensures ElectionTimeOutInterval() == old(ElectionTimeOutInterval())
      ensures SnapshotBatchCount() == old(SnapshotBatchCount())
    {
      journalRecoveryLogBatchSize := size;
    }

    function SnapshotBatchCount(): Long
      reads this
    {
      snapshotBatchCount
    }

    function HeartBeatInterval(): FiniteDuration
      reads this
    {
      heartBeatInterval
    }

    /** Twice the current heartbeat interval. */
    function ElectionTimeOutInterval(): FiniteDuration
      reads this
    {
      HeartBeatInterval().Times(2)
    }

    function ElectionTimeVariance(): Int {
      ELECTION_TIME_MAX_VARIANCE
    }

    function SnapshotChunkSize(): Int {
      SNAPSHOT_CHUNK_SIZE
    }

    function JournalRecoveryLogBatchSize(): Int
      reads this
    {
      journalRecoveryLogBatchSize
    }
  }

  /** Whatever has been set, the election timeout is twice the heartbeat, so a
      heartbeat of at least 100 ms gives an election timeout of at least 200 ms. */
  lemma ElectionTimeoutTracksHeartbeat(config: DefaultConfigParams)
    ensures config.ElectionTimeOutInterval().millis == 2 * config.HeartBeatInterval().millis
    ensures config.HeartBeatInterval().millis >= 100 ==> config.ElectionTimeOutInterval().millis >= 200
  {
  }

  /** The variance and the chunk size are fixed: 100 and 2,048,000, for every
      configuration object. */
  lemma FixedParameters(config: DefaultConfigParams)
    ensures config.ElectionTimeVariance() == 100
    ensures config.SnapshotChunkSize() == 2_048_000
  {
  }

  /** With the default heartbeat the election timeout is 200 ms, and adding
      the election time variance to it gives 300 ms. */
  lemma DefaultElectionWindow(config: DefaultConfigParams)
    requires config.HeartBeatInterval() == HEART_BEAT_INTERVAL
    ensures config.ElectionTimeOutInterval().millis == 200
    ensures config.ElectionTimeOutInterval().millis + config.ElectionTimeVariance() == 300
  {
  }

  /** A fresh configuration, then a new heartbeat and a new snapshot batch count:
      the timeout follows the heartbeat, and the recovery batch size keeps its default. */
  method ConfigurationScenario(heartbeat: FiniteDuration, count: Long)
    returns (initialTimeout: FiniteDuration, timeout: FiniteDuration, batchCount: Long, recoveryBatchSize: Int)
    ensures initialTimeout.millis == 200
    ensures timeout.millis == 2 * heartbeat.millis
    ensures batchCount == count
    ensures recoveryBatchSize == JOURNAL_RECOVERY_LOG_BATCH_SIZE
  {
    var config := new DefaultConfigParams();
    initialTimeout := config.ElectionTimeOutInterval();
    config.SetHeartBeatInterval(heartbeat);
    config.SetSnapshotBatchCount(count);
    timeout := config.ElectionTimeOutInterval();
    batchCount := config.SnapshotBatchCount();
    recoveryBatchSize := config.JournalRecoveryLogBatchSize();
  }
}

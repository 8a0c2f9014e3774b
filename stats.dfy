/**
 * Per-track statistics samples.
 *
 * `TrackStats` and `AudioTrackStats` are immutable records: every field is
 * `final`, assigned once by the constructor, and the constructors check
 * nothing. They are modelled as datatypes, which cannot change after they are
 * built, and each Java constructor as a total function that stores its
 * arguments. The Java class chain `AudioTrackStats extends TrackStats extends
 * BaseTrackStats` becomes nesting: each record holds the part its `super(...)`
 * call built.
 */
module Stats {

  /** Java `int`: 32-bit two's complement; every value, negative ones included. */
  newtype int32 = x: int | -0x8000_0000 <= x < 0x8000_0000

  /** Java `long`: 64-bit two's complement. */
  newtype int64 = x: int | -0x8000_0000_0000_0000 <= x < 0x8000_0000_0000_0000

  /** A Java `double` held as its 64 IEEE 754 bits; it is stored and never computed on. */
  datatype Timestamp = Timestamp(bits: bv64)

  /** The five fields the base statistics class receives from `super(...)`. */
  datatype BaseTrackStats = BaseTrackStats(
    trackId: string,
    packetsLost: int32,
    codec: string,
    ssrc: string,
    timestamp: Timestamp)

  /** Statistics common to received tracks: the base part plus two counters. */
  datatype TrackStats = TrackStats(
    base: BaseTrackStats,
    bytesReceived: int64,
    packetsReceived: int32)

  /** Statistics of a received audio track: the `TrackStats` part plus level and jitter. */
  datatype AudioTrackStats = AudioTrackStats(
    trackStats: TrackStats,
    audioLevel: int32,
    jitter: int32)

  /**
   * The `TrackStats` constructor. The first five arguments go, in the same
   * order, to the base constructor; the last two are stored as they are. No
   * requires: every `int` and `long`, negative ones too, is accepted.
   * In Java the class is abstract and this constructor protected, so a
   * `TrackStats` value only ever exists as the inherited part of a subclass
   * record such as `AudioTrackStats`.
   */
  function NewTrackStats(
    trackId: string, packetsLost: int32, codec: string, ssrc: string,
    timestamp: Timestamp, bytesReceived: int64, packetsReceived: int32): (s: TrackStats)
    ensures s.base.trackId == trackId && s.base.packetsLost == packetsLost
    ensures s.base.codec == codec && s.base.ssrc == ssrc && s.base.timestamp == timestamp
    ensures s.bytesReceived == bytesReceived && s.packetsReceived == packetsReceived
  {
    TrackStats(BaseTrackStats(trackId, packetsLost, codec, ssrc, timestamp), bytesReceived, packetsReceived)
  }

  /**
   * The `AudioTrackStats` constructor. The first seven arguments go, in the
   * same order, to the `TrackStats` constructor; `audioLevel` and `jitter` are
   * stored as they are, without any range check.
   */
  function NewAudioTrackStats(
    trackId: string, packetsLost: int32, codec: string, ssrc: string,
    timestamp: Timestamp, bytesReceived: int64, packetsReceived: int32,
    audioLevel: int32, jitter: int32): (a: AudioTrackStats)
    ensures a.trackStats == NewTrackStats(trackId, packetsLost, codec, ssrc, timestamp, bytesReceived, packetsReceived)
    ensures a.audioLevel == audioLevel && a.jitter == jitter
  {
    AudioTrackStats(NewTrackStats(trackId, packetsLost, codec, ssrc, timestamp, bytesReceived, packetsReceived),
                    audioLevel, jitter)
  }

  /**
   * Nothing is lost or altered by construction: reading the seven fields back
   * from any `TrackStats` value and handing them to the constructor rebuilds
   * that value.
   */
  lemma TrackStatsFieldsRoundTrip(s: TrackStats)
    ensures s == NewTrackStats(s.base.trackId, s.base.packetsLost, s.base.codec, s.base.ssrc,
                               s.base.timestamp, s.bytesReceived, s.packetsReceived)
  {
  }

  /**
   * The same for `AudioTrackStats`: the nine fields read back from a record
   * rebuild it, and the inherited seven are exactly those handed to `super`.
   */
  lemma AudioTrackStatsFieldsRoundTrip(a: AudioTrackStats)
    ensures a == NewAudioTrackStats(
      a.trackStats.base.trackId, a.trackStats.base.packetsLost, a.trackStats.base.codec,
      a.trackStats.base.ssrc, a.trackStats.base.timestamp, a.trackStats.bytesReceived,
      a.trackStats.packetsReceived, a.audioLevel, a.jitter)
  {
  }
}

/**
 * The records of cmd/MT_ProcessAudio/main.go and the time alignment that
 * processAudioData and processTranscriptData apply to them.
 *
 * Instants and durations are whole microseconds (the store's timestamp
 * unit). A float64 of the source is a `real` here: exact, with no rounding,
 * NaN or infinity. The source's `time.Duration(x)` conversion of a float64
 * truncates toward zero, and `Truncate` says so.
 */
module Records {

  /** One row of the event log. */
  datatype LogEvent = LogEvent(
    Time: int,                 // anchor instant, in microseconds
    Name: string,
    AudioDataFile: string,
    SampleRate: int,           // samples per second
    TranscriptDataFile: string)

  /** One row of an event's audio file; Time and Name are overwritten by the alignment. */
  datatype AudioData = AudioData(Frame: int, AudioLevel: real, Time: int, Name: string)

  /** One row of an event's transcript file; StartTime, EndTime and Name are overwritten by the alignment. */
  datatype TranscriptData = TranscriptData(
    StartSeconds: real,
    Duration: real,
    Word: string,
    StartTime: int,
    EndTime: int,
    Name: string)

  const MicrosPerSecond: real := 1000000.0

  /** The float64-to-integer conversion `time.Duration(x)`: truncation toward zero. */
  function Truncate(x: real): (n: int)
    ensures 0.0 <= x ==> 0 <= n && n as real <= x < n as real + 1.0
    ensures x < 0.0 ==> n <= 0 && n as real - 1.0 < x <= n as real
  {
    if 0.0 <= x then x.Floor else -((-x).Floor)
  }

  lemma TruncateMonotone(x: real, y: real)
    requires x <= y
    ensures Truncate(x) <= Truncate(y)
  {
  }

  /** `time.Duration(seconds * 1_000_000) * time.Microsecond`, in microseconds. */
  function MicrosOf(seconds: real): (n: int)
    ensures 0.0 <= seconds ==> 0 <= n && n as real <= seconds * MicrosPerSecond < n as real + 1.0
    ensures seconds < 0.0 ==> n <= 0 && n as real - 1.0 < seconds * MicrosPerSecond <= n as real
  {
    Truncate(seconds * MicrosPerSecond)
  }

  /** `(1 / float64(sampleRate)) * 1_000_000`: microseconds between two frames. */
  function Interval(sampleRate: int): (r: real)
    requires sampleRate != 0
    ensures r * sampleRate as real == MicrosPerSecond
    ensures 0 < sampleRate ==> 0.0 < r
  {
    (1.0 / sampleRate as real) * MicrosPerSecond
  }

  /** `time.Duration(float64(Frame) * intervalMicroseconds) * time.Microsecond`, in microseconds. */
  function AudioOffset(frame: int, sampleRate: int): (n: int)
    requires sampleRate != 0
    ensures frame == 0 ==> n == 0
    ensures 0 <= frame && 0 < sampleRate ==> 0 <= n && n as real <= frame as real * Interval(sampleRate) < n as real + 1.0
  {
    Truncate(frame as real * Interval(sampleRate))
  }

  /**
   * For a non-negative frame and a positive rate the offset is exact to the
   * microsecond: it is frame / sampleRate seconds, rounded down.
   */
  lemma AudioOffsetExact(frame: int, sampleRate: int)
    requires 0 <= frame && 0 < sampleRate
    ensures AudioOffset(frame, sampleRate) == frame * 1000000 / sampleRate
  {
    var n := frame * 1000000;
    var q, r := n / sampleRate, n % sampleRate;
    var x := frame as real * Interval(sampleRate);
    assert x == n as real / sampleRate as real;
    assert n as real == q as real * sampleRate as real + r as real;
    assert x == q as real + r as real / sampleRate as real;
    assert 0.0 <= r as real / sampleRate as real < 1.0;
  }

  lemma ProductNonNegative(x: real, y: real)
    requires 0.0 <= x && 0.0 <= y
    ensures 0.0 <= x * y
  {
  }

  /** For a positive rate a later frame never gets an earlier offset. */
  lemma AudioOffsetMonotone(frame1: int, frame2: int, sampleRate: int)
    requires frame1 <= frame2 && 0 < sampleRate
    ensures AudioOffset(frame1, sampleRate) <= AudioOffset(frame2, sampleRate)
  {
    var interval := Interval(sampleRate);
    assert 0.0 < interval;
    var d := (frame2 - frame1) as real;
    assert frame2 as real * interval == frame1 as real * interval + d * interval;
    ProductNonNegative(d, interval);
    TruncateMonotone(frame1 as real * interval, frame2 as real * interval);
  }

  /** One audio record tagged with the event name and placed at anchor + offset(Frame). */
  function AlignAudioRecord(a: AudioData, anchor: int, sampleRate: int, name: string): AudioData
    requires sampleRate != 0
  {
    a.(Time := anchor + AudioOffset(a.Frame, sampleRate), Name := name)
  }

  /** What processAudioData makes of the records it loaded. */
  function AlignedAudio(s: seq<AudioData>, anchor: int, sampleRate: int, name: string): (r: seq<AudioData>)
    requires sampleRate != 0
    ensures |r| == |s|
    ensures forall i :: 0 <= i < |s| ==>
      && r[i].Frame == s[i].Frame
      && r[i].AudioLevel == s[i].AudioLevel
      && r[i].Name == name
      && r[i].Time == anchor + AudioOffset(s[i].Frame, sampleRate)
  {
    seq(|s|, i requires 0 <= i < |s| => AlignAudioRecord(s[i], anchor, sampleRate, name))
  }

  /** Frame 0 is placed exactly at the event's anchor. */
  lemma AlignedAudioFrameZero(s: seq<AudioData>, anchor: int, sampleRate: int, name: string, i: int)
    requires sampleRate != 0 && 0 <= i < |s| && s[i].Frame == 0
    ensures AlignedAudio(s, anchor, sampleRate, name)[i].Time == anchor
  {
    assert 0 as real * Interval(sampleRate) == 0.0;
  }

  /** For a positive rate, records ordered by frame come out ordered by time. */
  lemma AlignedAudioOrdered(s: seq<AudioData>, anchor: int, sampleRate: int, name: string, i: int, j: int)
    requires 0 < sampleRate && 0 <= i <= j < |s| && s[i].Frame <= s[j].Frame
    ensures AlignedAudio(s, anchor, sampleRate, name)[i].Time <= AlignedAudio(s, anchor, sampleRate, name)[j].Time
  {
    AudioOffsetMonotone(s[i].Frame, s[j].Frame, sampleRate);
  }

  /** A non-negative frame at a positive rate lands frame / sampleRate seconds after the anchor, rounded down to the microsecond. */
  lemma AlignedAudioExact(s: seq<AudioData>, anchor: int, sampleRate: int, name: string, i: int)
    requires 0 < sampleRate && 0 <= i < |s| && 0 <= s[i].Frame
    ensures AlignedAudio(s, anchor, sampleRate, name)[i].Time == anchor + s[i].Frame * 1000000 / sampleRate
  {
    AudioOffsetExact(s[i].Frame, sampleRate);
  }

  /** One transcript record: start from the anchor, end from the start, tagged with the event name. */
  function AlignTranscriptRecord(t: TranscriptData, anchor: int, name: string): TranscriptData
  {
    var start := anchor + MicrosOf(t.StartSeconds);
    t.(StartTime := start, EndTime := start + MicrosOf(t.Duration), Name := name)
  }

  /** What processTranscriptData makes of the records it loaded. */
  function AlignedTranscript(s: seq<TranscriptData>, anchor: int, name: string): (r: seq<TranscriptData>)
    ensures |r| == |s|
    ensures forall i :: 0 <= i < |s| ==>
      && r[i].StartSeconds == s[i].StartSeconds
      && r[i].Duration == s[i].Duration
      && r[i].Word == s[i].Word
      && r[i].Name == name
      && r[i].StartTime == anchor + MicrosOf(s[i].StartSeconds)
      && r[i].EndTime - r[i].StartTime == MicrosOf(s[i].Duration)
  {
    seq(|s|, i requires 0 <= i < |s| => AlignTranscriptRecord(s[i], anchor, name))
  }

  /**
   * The end instant is derived from the truncated start, not from the
   * anchor: half a microsecond of start and half a microsecond of duration
   * end at the anchor, although together they make one microsecond.
   */
  lemma EndTimeFromStartTime(anchor: int, name: string)
    ensures var t := TranscriptData(0.0000005, 0.0000005, "w", 0, 0, "");
      var r := AlignedTranscript([t], anchor, name)[0];
      r.EndTime == anchor && anchor + MicrosOf(t.StartSeconds + t.Duration) == anchor + 1
  {
    var t := TranscriptData(0.0000005, 0.0000005, "w", 0, 0, "");
    assert MicrosOf(t.StartSeconds) == 0;
    assert MicrosOf(t.Duration) == 0;
    assert MicrosOf(t.StartSeconds + t.Duration) == 1;
  }

  /** A negative duration is passed through: such a record ends no later than it starts. */
  lemma NegativeDurationEndsEarly(s: seq<TranscriptData>, anchor: int, name: string, i: int)
    requires 0 <= i < |s| && s[i].Duration < 0.0
    ensures AlignedTranscript(s, anchor, name)[i].EndTime <= AlignedTranscript(s, anchor, name)[i].StartTime
  {
  }

  /** 100 samples per second: frame 50 is half a second after the anchor. */
  lemma AudioScenario(anchor: int)
    ensures AlignedAudio([AudioData(50, 0.0, 0, "")], anchor, 100, "e")[0].Time == anchor + 500000
  {
    AudioOffsetExact(50, 100);
  }

  /** A word 2.5 s into the event lasting 1.25 s spans anchor + 2.5 s to anchor + 3.75 s. */
  lemma TranscriptScenario(anchor: int)
    ensures var r := AlignedTranscript([TranscriptData(2.5, 1.25, "w", 0, 0, "")], anchor, "e")[0];
      r.StartTime == anchor + 2500000 && r.EndTime == anchor + 3750000
  {
    assert MicrosOf(2.5) == 2500000;
    assert MicrosOf(1.25) == 1250000;
  }
}

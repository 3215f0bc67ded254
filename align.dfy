/**
 * processAudioData and processTranscriptData of cmd/MT_ProcessAudio/main.go:
 * the loaded records are overwritten in place, one at a time, with their
 * absolute instants and the event name.
 *
 * Loading the CSV file is I/O; its outcome is a parameter (None when the
 * file could not be opened or parsed).
 */
module Align {
  import opened Options
  import opened Records

  /** The loop over the loaded records in processAudioData. */
  method AlignAudio(data: array<AudioData>, anchor: int, sampleRate: int, name: string)
    requires sampleRate != 0
    modifies data
    ensures data[..] == AlignedAudio(old(data[..]), anchor, sampleRate, name)
  {
    var intervalMicroseconds := Interval(sampleRate);
    for i := 0 to data.Length
      invariant forall k :: 0 <= k < i ==> data[k] == AlignAudioRecord(old(data[k]), anchor, sampleRate, name)
      invariant forall k :: i <= k < data.Length ==> data[k] == old(data[k])
    {
      var a := data[i];
      data[i] := a.(Time := anchor + Truncate(a.Frame as real * intervalMicroseconds), Name := name);
    }
  }

  /** processAudioData: the loading error, or the loaded records aligned to the event. */
  method ProcessAudioData(loaded: Option<seq<AudioData>>, anchor: int, sampleRate: int, name: string)
    returns (r: Option<seq<AudioData>>)
    requires sampleRate != 0
    ensures loaded.None? ==> r.None?
    ensures loaded.Some? ==> r == Some(AlignedAudio(loaded.value, anchor, sampleRate, name))
  {
    if loaded.None? {
      return None;
    }
    var data := new AudioData[|loaded.value|](i requires 0 <= i < |loaded.value| => loaded.value[i]);
    assert data[..] == loaded.value;
    AlignAudio(data, anchor, sampleRate, name);
    r := Some(data[..]);
  }

  /** The loop over the loaded records in processTranscriptData. */
  method AlignTranscript(data: array<TranscriptData>, anchor: int, name: string)
    modifies data
    ensures data[..] == AlignedTranscript(old(data[..]), anchor, name)
  {
    for i := 0 to data.Length
      invariant forall k :: 0 <= k < i ==> data[k] == AlignTranscriptRecord(old(data[k]), anchor, name)
      invariant forall k :: i <= k < data.Length ==> data[k] == old(data[k])
    {
      var t := data[i];
      var startTime := anchor + MicrosOf(t.StartSeconds);
      t := t.(StartTime := startTime);
      t := t.(EndTime := t.StartTime + MicrosOf(t.Duration));
      data[i] := t.(Name := name);
    }
  }

  /** processTranscriptData: the loading error, or the loaded records aligned to the event. */
  method ProcessTranscriptData(loaded: Option<seq<TranscriptData>>, anchor: int, name: string)
    returns (r: Option<seq<TranscriptData>>)
    ensures loaded.None? ==> r.None?
    ensures loaded.Some? ==> r == Some(AlignedTranscript(loaded.value, anchor, name))
  {
    if loaded.None? {
      return None;
    }
    var data := new TranscriptData[|loaded.value|](i requires 0 <= i < |loaded.value| => loaded.value[i]);
    assert data[..] == loaded.value;
    AlignTranscript(data, anchor, name);
    r := Some(data[..]);
  }
}

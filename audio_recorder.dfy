/**
 * The microphone hook (useAudioRecorder.ts): a recorder over a media stream
 * that hands non-empty chunks to a callback every 250 ms while recording,
 * and a stop operation that also turns off every track of the stream.
 */
module AudioRecorder {
  import opened Wrappers

  /** `MediaRecorder.state`. */
  datatype RecorderState = Inactive | Recording | Paused

  const Timeslice: nat := 250

  /** One hook instance: the `isRecording` state and the two refs. */
  class Recorder {
    var isRecording: bool
    /** `mediaRecorderRef.current`: its state and the timeslice it was started with. */
    var recorder: Option<RecorderState>
    var timeslice: Option<nat>
    /** `streamRef.current`: whether each of the stream's tracks is still live. */
    var stream: Option<array<bool>>
    /** The chunks handed to `onAudioChunk`, in order. */
    var delivered: seq<seq<bv8>>

    constructor ()
      ensures !isRecording && recorder.None? && timeslice.None? && stream.None? && delivered == []
    {
      isRecording := false;
      recorder := None;
      timeslice := None;
      stream := None;
      delivered := [];
    }

    /**
     * `startRecording`. `device` is what `getUserMedia` yields (`None`: it
     * rejects); `supported` says whether the recorder can be created for the
     * stream. Already recording: nothing changes. The stream ref is set as
     * soon as the device is granted; only when the recorder is created too
     * does it start with a 250 ms timeslice and `isRecording` become true.
     * A failure is only logged.
     */
    method StartRecording(device: Option<array<bool>>, supported: bool)
      modifies this
      ensures old(recorder) == Some(Recording) || device.None? ==>
                isRecording == old(isRecording) && recorder == old(recorder) && timeslice == old(timeslice)
                && stream == old(stream)
      ensures old(recorder) != Some(Recording) && device.Some? ==> stream == device
      ensures old(recorder) != Some(Recording) && device.Some? && supported ==>
                recorder == Some(Recording) && timeslice == Some(Timeslice) && isRecording
      ensures old(recorder) != Some(Recording) && device.Some? && !supported ==>
                recorder == old(recorder) && timeslice == old(timeslice) && isRecording == old(isRecording)
      ensures delivered == old(delivered)
    {
      if recorder == Some(Recording) {
        return;
      }
      if device.None? {
        return;
      }
      stream := device;
      if !supported {
        return;
      }
      recorder := Some(Recording);
      timeslice := Some(Timeslice);
      isRecording := true;
    }

    /** `ondataavailable`: only a non-empty chunk reaches the callback. */
    method OnDataAvailable(chunk: seq<bv8>)
      requires recorder.Some?
      modifies this`delivered
      ensures |chunk| > 0 ==> delivered == old(delivered) + [chunk]
      ensures |chunk| == 0 ==> delivered == old(delivered)
    {
      if |chunk| > 0 {
        delivered := delivered + [chunk];
      }
    }

    /**
     * `stopRecording`: stops the recorder if it is recording, stops every
     * track of a held stream and drops the stream ref, and always leaves
     * `isRecording` false.
     */
    method StopRecording()
      modifies this, if stream.Some? then {stream.value} else {}
      ensures !isRecording && stream.None? && timeslice == old(timeslice) && delivered == old(delivered)
      ensures recorder == (if old(recorder) == Some(Recording) then Some(Inactive) else old(recorder))
      ensures old(stream).Some? ==> forall i :: 0 <= i < old(stream).value.Length ==> !old(stream).value[i]
    {
      if recorder == Some(Recording) {
        recorder := Some(Inactive);
      }
      if stream.Some? {
        StopTracks(stream.value);
        stream := None;
      }
      isRecording := false;
    }
  }

  /** `getTracks().forEach(track => track.stop())`. */
  method StopTracks(tracks: array<bool>)
    modifies tracks
    ensures forall i :: 0 <= i < tracks.Length ==> !tracks[i]
  {
    var i := 0;
    while i < tracks.Length
      invariant 0 <= i <= tracks.Length
      invariant forall j :: 0 <= j < i ==> !tracks[j]
    {
      tracks[i] := false;
      i := i + 1;
    }
  }
}

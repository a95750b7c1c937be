/** The terminal variant's recording session (`SimpleVoiceRecorder`): a flag
    and a list of chunks changed in place, with `toggle_recording` bound to
    the hotkey. It always transcribes in Spanish and returns nothing; its
    only output is the clipboard. */
module SimpleRecorder {

  import opened Optional
  import opened Audio
  import opened Pipeline
  import Text

  /** The language hint `_process_audio` passes to Whisper. */
  const Language: Option<string> := Some("es")

  class SimpleVoiceRecorder {
    var isRecording: bool
    var audioData: seq<Chunk>
    var recordingThread: CaptureThread?
    /** Every text `pyperclip.copy` put on the clipboard, in order. */
    var clipboard: seq<string>
    /** Every call of the Whisper model, in order. */
    var engineCalls: seq<EngineCall>

    /** A fresh recorder is idle with no audio and no thread. */
    constructor ()
      ensures !isRecording && audioData == [] && recordingThread == null
      ensures clipboard == [] && engineCalls == []
    {
      isRecording := false;
      audioData := [];
      recordingThread := null;
      clipboard := [];
      engineCalls := [];
    }

    /** `start_recording`: a no-op while the flag is set; otherwise raises
        the flag, empties the buffer and spawns the capture thread. */
    method StartRecording()
      modifies this`isRecording, this`audioData, this`recordingThread
      ensures old(isRecording) ==> unchanged(this)
      ensures !old(isRecording) ==> isRecording && audioData == [] && fresh(recordingThread)
    {
      if isRecording {
        return;
      }
      isRecording := true;
      audioData := [];
      recordingThread := new CaptureThread();
    }

    /** `_record_audio`: appends each chunk in read order while the flag is
        up, stops at the first failed read; a failure to open the stream, or
        to close it after a failed read, drops the flag. */
    method RecordAudio(mic: Microphone)
      modifies this`isRecording, this`audioData
      ensures isRecording == (old(isRecording) && FlagSurvivesCapture(mic))
      ensures audioData == old(audioData) + (if old(isRecording) && mic.opens then Captured(mic.results) else [])
    {
      if !mic.opens {
        isRecording := false;
        return;
      }
      ghost var before := audioData;
      var i := 0;
      while isRecording && i < |mic.results|
        invariant i <= |mic.results|
        invariant isRecording == old(isRecording) && (!isRecording ==> i == 0)
        invariant |audioData| == |before| + i && audioData[..|before|] == before
        invariant forall k :: 0 <= k < i ==> mic.results[k] == Data(audioData[|before| + k])
      {
        if mic.results[i].ReadFailure? {
          break;
        }
        audioData := audioData + [mic.results[i].chunk];
        i := i + 1;
      }
      if isRecording {
        CapturedIsUnique(mic.results, audioData[|before|..]);
        assert audioData == before + audioData[|before|..];
      } else {
        assert audioData == audioData[..|before|];
      }
      // stopped at a failed read, so the close runs before stop is pressed
      if !mic.closes && i < |mic.results| {
        isRecording := false;
      }
    }

    /** `_process_audio`: joins the chunks, writes the WAV file, transcribes
        in Spanish, and copies the stripped transcript only when it is not
        empty; any exception is swallowed. */
    method ProcessAudio(svc: Services)
      modifies this`clipboard, this`engineCalls
      ensures clipboard == old(clipboard) + Deliver(audioData, Language, svc).copied
      ensures engineCalls == old(engineCalls) + Deliver(audioData, Language, svc).calls
    {
      if audioData == [] {
        return;
      }
      var audio := Concat(audioData);
      if !svc.wavWritable {
        return;
      }
      var output := svc.transcribe(audio, Language);
      engineCalls := engineCalls + [EngineCall(audio, Language)];
      if output.EngineFailure? {
        return;
      }
      var transcription := Text.Strip(output.text);
      if transcription != [] {
        if !svc.clipboardWorks {
          return;
        }
        clipboard := clipboard + [transcription];
      }
    }

    /** `stop_recording`: a no-op when the flag is down; otherwise drops the
        flag and, after the capture thread has finished, processes the buffer
        only if it holds chunks. */
    method StopRecording(svc: Services)
      modifies this`isRecording, this`clipboard, this`engineCalls
      ensures !old(isRecording) ==> unchanged(this)
      ensures !isRecording
      ensures old(isRecording) && audioData == [] ==>
        clipboard == old(clipboard) && engineCalls == old(engineCalls)
      ensures old(isRecording) ==>
        clipboard == old(clipboard) + Deliver(audioData, Language, svc).copied
        && engineCalls == old(engineCalls) + Deliver(audioData, Language, svc).calls
    {
      if !isRecording {
        return;
      }
      isRecording := false;
      if |audioData| > 0 {
        ProcessAudio(svc);
      }
    }

    /** `toggle_recording`: stops a running recording, starts one otherwise. */
    method ToggleRecording(svc: Services)
      modifies this`isRecording, this`audioData, this`recordingThread, this`clipboard, this`engineCalls
      ensures isRecording == !old(isRecording)
      ensures !old(isRecording) ==>
        audioData == [] && fresh(recordingThread)
        && clipboard == old(clipboard) && engineCalls == old(engineCalls)
      ensures old(isRecording) ==>
        audioData == old(audioData) && recordingThread == old(recordingThread)
        && clipboard == old(clipboard) + Deliver(audioData, Language, svc).copied
        && engineCalls == old(engineCalls) + Deliver(audioData, Language, svc).calls
    {
      if isRecording {
        StopRecording(svc);
      } else {
        StartRecording();
      }
    }
  }

  /** Two presses of the hotkey from a fresh recorder, with the capture
      thread running in between. The first press always starts a recording.
      The second stops it, and transcribes what was captured, exactly when
      the capture left the flag up; after a failed open, or a failed close
      following a failed read, the flag was already down, so the second
      press starts a new recording instead. */
  method ToggleTwiceFromIdle(mic: Microphone, svc: Services)
    returns (afterFirst: bool, afterSecond: bool, copied: seq<string>)
    ensures afterFirst
    ensures afterSecond <==> !FlagSurvivesCapture(mic)
    ensures FlagSurvivesCapture(mic) ==> copied == Deliver(Captured(mic.results), Language, svc).copied
    ensures !FlagSurvivesCapture(mic) ==> copied == []
  {
    var rec := new SimpleVoiceRecorder();
    rec.ToggleRecording(svc);
    afterFirst := rec.isRecording;
    rec.RecordAudio(mic);
    assert rec.audioData == Captured(mic.results) || !rec.isRecording;
    rec.ToggleRecording(svc);
    afterSecond := rec.isRecording;
    copied := rec.clipboard;
  }
}

/** The GUI back end's recording session (`VoiceRecorder`): a flag, a list
    of chunks, a start time and a language hint, changed in place by
    `start_recording`, the capture thread and `stop_recording`. */
module Recorder {

  import opened Optional
  import opened Audio
  import opened Text
  import opened Pipeline

  /** The language the recorder is created with when none is given. */
  const DefaultLanguage: Option<string> := Some("es")

  /** How many characters of the transcript the success notification shows. */
  const PreviewLength: nat := 50

  /** The notification preview: the first `PreviewLength` characters of the
      transcript, followed by "..." exactly when something was cut off. */
  function Preview(transcript: string): (p: string)
    ensures |transcript| <= PreviewLength ==> p == transcript
    ensures |transcript| > PreviewLength ==>
      |p| == PreviewLength + 3 && p[..PreviewLength] == transcript[..PreviewLength] && p[PreviewLength..] == "..."
  {
    transcript[..if |transcript| < PreviewLength then |transcript| else PreviewLength]
    + (if |transcript| > PreviewLength then "..." else "")
  }

  /** The preview is never longer than the cut plus the ellipsis, always
      starts with the transcript's opening characters, and is longer than
      the cut only when the transcript is. */
  lemma PreviewBounds(transcript: string)
    ensures |Preview(transcript)| <= PreviewLength + 3
    ensures |Preview(transcript)| > PreviewLength <==> |transcript| > PreviewLength
    ensures var n := if |transcript| < PreviewLength then |transcript| else PreviewLength;
      Preview(transcript)[..n] == transcript[..n]
  {
  }

  class VoiceRecorder {
    var isRecording: bool
    var audioData: seq<Chunk>
    var startTime: Option<real>
    var language: Option<string>
    var recordingThread: CaptureThread?
    /** Every text `pyperclip.copy` put on the clipboard, in order. */
    var clipboard: seq<string>
    /** Every call of the Whisper model, in order. */
    var engineCalls: seq<EngineCall>
    /** The previews shown by the success notification, in order. */
    var notices: seq<string>

    /** A fresh recorder is idle with no audio, no start time and no thread. */
    constructor (language: Option<string> := DefaultLanguage)
      ensures !isRecording && audioData == [] && startTime == None
      ensures this.language == language && recordingThread == null
      ensures clipboard == [] && engineCalls == [] && notices == []
    {
      isRecording := false;
      audioData := [];
      startTime := None;
      this.language := language;
      recordingThread := null;
      clipboard := [];
      engineCalls := [];
      notices := [];
    }

    /** `set_language`: overwrites the hint the next transcription uses. */
    method SetLanguage(code: Option<string>)
      modifies this`language
      ensures language == code
    {
      language := code;
    }

    /** `start_recording`: refused while the flag is set; otherwise raises
        the flag, empties the buffer, records the start time and spawns the
        capture thread. */
    method StartRecording(now: real) returns (started: bool)
      modifies this`isRecording, this`audioData, this`startTime, this`recordingThread
      ensures started == !old(isRecording)
      ensures old(isRecording) ==> unchanged(this)
      ensures !old(isRecording) ==>
        isRecording && audioData == [] && startTime == Some(now) && fresh(recordingThread)
    {
      if isRecording {
        return false;
      }
      isRecording := true;
      audioData := [];
      startTime := Some(now);
      recordingThread := new CaptureThread();
      return true;
    }

    /** `_record_audio`, the body of the capture thread: opens the stream,
        appends each chunk in read order while the flag is up, stops at the
        first failed read, and closes the stream. A failure to open the
        stream drops the flag; so does a failure to close it after a failed
        read (see `FlagSurvivesCapture`). */
    method RecordAudio(mic: Microphone)
      modifies this`isRecording, this`audioData
      ensures isRecording == (old(isRecording) && FlagSurvivesCapture(mic))
      ensures audioData == old(audioData) + (if old(isRecording) && mic.opens then Captured(mic.results) else [])
    {
      if !mic.opens {
        isRecording := false;
        return;
      }
      ghost var before := audioData;
      var i := 0;
      while isRecording && i < |mic.results|
        invariant i <= |mic.results|
        invariant isRecording == old(isRecording) && (!isRecording ==> i == 0)
        invariant |audioData| == |before| + i && audioData[..|before|] == before
        invariant forall k :: 0 <= k < i ==> mic.results[k] == Data(audioData[|before| + k])
      {
        if mic.results[i].ReadFailure? {
          break;
        }
        audioData := audioData + [mic.results[i].chunk];
        i := i + 1;
      }
      if isRecording {
        CapturedIsUnique(mic.results, audioData[|before|..]);
        assert audioData == before + audioData[|before|..];
      } else {
        assert audioData == audioData[..|before|];
      }
      // stopped at a failed read, so the close runs before stop is pressed
      if !mic.closes && i < |mic.results| {
        isRecording := false;
      }
    }

    /** `_process_audio`: joins the chunks, writes the WAV file, transcribes
        with the current language, and copies and announces a non-empty
        stripped transcript; every failure yields `None`. */
    method ProcessAudio(svc: Services) returns (r: Option<string>)
      modifies this`clipboard, this`engineCalls, this`notices
      ensures r == Deliver(audioData, language, svc).result
      ensures clipboard == old(clipboard) + Deliver(audioData, language, svc).copied
      ensures engineCalls == old(engineCalls) + Deliver(audioData, language, svc).calls
      ensures notices == old(notices) + (if r.Some? then [Preview(r.value)] else [])
    {
      if audioData == [] {
        return None;
      }
      var audio := Concat(audioData);
      if !svc.wavWritable {
        return None;
      }
      var output := svc.transcribe(audio, language);
      engineCalls := engineCalls + [EngineCall(audio, language)];
      if output.EngineFailure? {
        return None;
      }
      var transcript := Strip(output.text);
      if transcript != [] {
        if !svc.clipboardWorks {
          return None;
        }
        clipboard := clipboard + [transcript];
        notices := notices + [Preview(transcript)];
        return Some(transcript);
      }
      return None;
    }

    /** `stop_recording`: refused when the flag is down; otherwise drops the
        flag, waits for the capture thread (which in this sequential model
        has already run), and processes the buffer only if it holds chunks.
        The buffer itself is left as it is. */
    method StopRecording(svc: Services) returns (r: Option<string>)
      modifies this`isRecording, this`clipboard, this`engineCalls, this`notices
      ensures !old(isRecording) ==> r == None && unchanged(this)
      ensures !isRecording
      ensures old(isRecording) && audioData == [] ==>
        r == None && clipboard == old(clipboard) && engineCalls == old(engineCalls) && notices == old(notices)
      ensures old(isRecording) ==>
        r == Deliver(audioData, language, svc).result
        && clipboard == old(clipboard) + Deliver(audioData, language, svc).copied
        && engineCalls == old(engineCalls) + Deliver(audioData, language, svc).calls
        && notices == old(notices) + (if r.Some? then [Preview(r.value)] else [])
    {
      if !isRecording {
        return None;
      }
      isRecording := false;
      if |audioData| > 0 {
        r := ProcessAudio(svc);
      } else {
        r := None;
      }
    }
  }

  /** One session as the GUI drives it: a fresh recorder, `start_recording`,
      the capture thread's run, then `stop_recording`. The transcript is the
      engine text of the captured chunks, stripped; it is what the clipboard
      receives; and when the capture already dropped the flag (a failed
      open, or a failed close after a failed read) stop is refused and
      nothing is transcribed. */
  method RecordSession(language: Option<string>, now: real, mic: Microphone, svc: Services)
    returns (started: bool, r: Option<string>, copied: seq<string>, calls: seq<EngineCall>)
    ensures started
    ensures !FlagSurvivesCapture(mic) ==> r == None && copied == [] && calls == []
    ensures FlagSurvivesCapture(mic) ==>
      var d := Deliver(Captured(mic.results), language, svc);
      r == d.result && calls == d.calls
    ensures copied == (if r.Some? then [r.value] else [])
    ensures |calls| <= 1
    ensures forall k :: 0 <= k < |calls| ==> calls[k].language == language
  {
    var rec := new VoiceRecorder(language);
    started := rec.StartRecording(now);
    rec.RecordAudio(mic);
    assert rec.audioData == Captured(mic.results) || !rec.isRecording;
    r := rec.StopRecording(svc);
    copied := rec.clipboard;
    calls := rec.engineCalls;
  }

  /** `set_language` before a session decides the hint the engine receives,
      whatever the recorder was created with. */
  method LanguageReachesEngine(initial: Option<string>, code: Option<string>, now: real, mic: Microphone, svc: Services)
    returns (calls: seq<EngineCall>)
    ensures |calls| <= 1
    ensures forall k :: 0 <= k < |calls| ==> calls[k] == EngineCall(Concat(Captured(mic.results)), code)
    ensures calls != [] <==> FlagSurvivesCapture(mic) && Captured(mic.results) != [] && svc.wavWritable
  {
    var rec := new VoiceRecorder(initial);
    rec.SetLanguage(code);
    var started := rec.StartRecording(now);
    rec.RecordAudio(mic);
    assert rec.audioData == Captured(mic.results) || !rec.isRecording;
    var r := rec.StopRecording(svc);
    calls := rec.engineCalls;
  }
}

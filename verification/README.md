# SimpleVoice recording session, modelled in Dafny

SimpleVoice records the microphone while a hotkey toggle is on, transcribes
the recording with a local Whisper model, and copies the transcript to the
clipboard. This project models the recording session state machine in its two
forms: the GUI back end `VoiceRecorder` (`src/recorder.py`) and the terminal
tool `SimpleVoiceRecorder` (`main.py`).

Each session object holds an `is_recording` flag and an `audio_data` list of
byte chunks. The GUI variant also holds a start time and a language hint. The
operations are modelled as methods of Dafny classes with those fields:

- `start_recording` is refused while the flag is set.
- `stop_recording` is refused while it is down.
- the capture thread's loop `_record_audio` appends chunks in read order.
- `_process_audio` joins the chunks, calls Whisper, strips the text and copies
  a non-empty result to the clipboard.
- `toggle_recording` (terminal variant) dispatches on the flag.

The external collaborators are inputs:

- The microphone is a `Microphone` value. It says whether the stream opens,
  gives the sequence of read results up to the moment the flag drops, and
  says whether the stream closes cleanly.
- The file system, the Whisper model and the clipboard are a `Services`
  value. It says whether the WAV write succeeds, gives the model as a
  function of the samples and the language hint, and says whether the copy
  succeeds.
- The clipboard and the engine are observed through logs kept as fields of
  the recorder (`clipboard`, `engineCalls`, and `notices` for the success
  notification's preview).

The capture thread is run sequentially. A session is `StartRecording`, then
`RecordAudio` (the thread body), then `StopRecording`. That order is the one
the thread `join` enforces before any processing starts. The shared
processing decision is the function `Pipeline.Deliver`; both classes'
`ProcessAudio` methods are proved against it.

Modules: `Optional` (Option type), `Audio` (chunks, reads, capture and
joining), `Text` (Python's `str.strip`), `Pipeline` (the processing
decision), `Recorder` (`src/recorder.py`), `SimpleRecorder` (`main.py`).

### Behaviour of the code worth knowing

- There is no Processing state: `is_recording` is a plain flag, and
  `stop_recording` drops it before it processes anything. So
  `start_recording` only looks at the flag.
- When the stream fails to open, `start_recording` has already returned
  `True`. The capture thread then drops the flag. The next `stop_recording`
  is refused, and the next toggle starts a new recording.
- When a failed read ends the capture loop and closing the stream then also
  fails, the thread drops the flag before stop is pressed. The chunks read
  before the failure are then never transcribed. When stop ended the loop, a
  failed close only clears a flag that is already down, and the chunks are
  processed (`FlagSurvivesCapture`, `CloseFailureDependsOnHowCaptureEnded`,
  `RecordSession`, `ToggleTwiceFromIdle`).
- A clipboard failure is not a harmless delivery failure. `pyperclip.copy`
  raises inside `_process_audio`'s `try`, so `src/recorder.py` returns `None`
  even though the transcription succeeded (`ClipboardFailureLosesTranscript`).
- `stop_recording` does not clear `audio_data`. The buffer keeps its chunks
  until the next `start_recording`.

## Model

| member | source | states |
|---|---|---|
| Audio.Captured | src/recorder.py:188-195 | the kept chunks are the reads one for one, and they end at the last read or just before the first failed read |
| Audio.CapturedIsUnique | src/recorder.py:188-195 | any chunk sequence that matches the reads one for one and ends at the end or at a failure is the captured one |
| Audio.CapturedStopsAtFailure | src/recorder.py:189-195 | a failed read ends capture keeping exactly the chunks before it; nothing after it is kept |
| Audio.CapturedWithoutFailure | src/recorder.py:188-192 | with no failed read, every chunk is kept, in read order |
| Audio.FlagSurvivesCapture | src/recorder.py:188-203 | defines whether the flag is still up when stop checks it (src/recorder.py:150, 155): the stream opened, and it either closed cleanly or no read failed, so stop ended the loop and a failed close only cleared a flag that was already down (same sequencing in main.py:123-139) |
| Audio.CloseFailureDependsOnHowCaptureEnded | src/recorder.py:188-203 | a failed close after stop ended the loop leaves the flag for stop to clear; after a failed read it has already dropped the flag |
| Audio.FailureAfterTwoReads | main.py:123-130 | two good reads followed by a failure keep exactly those two chunks, in order |
| Audio.Concat | src/recorder.py:213 | defines the joined buffer `b''.join(audio_data)`: the chunks' bytes, one chunk after the other, in list order (also main.py:151) |
| Audio.ConcatAppend | src/recorder.py:213 | joining two runs of chunks gives the join of the first followed by the join of the second |
| Audio.ConcatChunkAt | src/recorder.py:213 | every chunk lies in the joined buffer between the chunks before it and the chunks after it (no reordering, no loss) |
| Audio.ConcatEmptyIff | main.py:151 | the joined buffer is empty exactly when every chunk is empty |
| Audio.ConcatLength | main.py:151-153 | the joined buffer's length is the sum of the chunk lengths |
| Text.IsSpace | src/recorder.py:245 | defines the characters `str.strip()` removes: U+0009..U+000D, U+001C..U+0020, U+0085, U+00A0, U+1680, U+2000..U+200A, U+2028, U+2029, U+202F, U+205F and U+3000 (also main.py:170) |
| Text.Strip | src/recorder.py:245 | the stripped text is no longer than the input and neither starts nor ends with whitespace |
| Text.StripIsSlice | src/recorder.py:245 | the stripped text is a slice of the input with only whitespace before and after it |
| Text.StripIsUnique | main.py:170 | any slice with only whitespace around it and non-space ends is what strip returns |
| Text.StripIdempotent | src/recorder.py:245 | stripping a stripped text changes nothing |
| Text.StripEmptyIff | src/recorder.py:247 | the stripped text is empty exactly when the engine text is all whitespace |
| Pipeline.Deliver | src/recorder.py:205-271 | no audio means no engine call and no copy. Otherwise there is at most one engine call, on the joined chunks with the current language. A result exists exactly when the engine answered with non-blank text and the copy succeeded. The result is the stripped text, and the clipboard receives exactly that text, once |
| Pipeline.SpeechIsCopiedOnce | src/recorder.py:245-264 | an engine answering " hello world\n" returns "hello world" and copies it exactly once |
| Pipeline.SilenceIsNotCopied | src/recorder.py:265-267 | an engine answering only whitespace gives no result and no copy |
| Pipeline.EngineFailureIsNotCopied | src/recorder.py:269-271 | an engine that raises gives no result and no copy |
| Pipeline.ClipboardFailureLosesTranscript | src/recorder.py:247-271 | when the copy raises, the transcript is not returned although the engine was called and answered with text |
| Recorder.Preview | src/recorder.py:255 | a transcript of at most 50 characters is shown whole; a longer one shows its first 50 characters followed by "..." |
| Recorder.PreviewBounds | src/recorder.py:255 | the preview is at most 53 characters, starts with the transcript's opening characters, and exceeds 50 exactly when the transcript does |
| Recorder.VoiceRecorder.constructor | src/recorder.py:33-51 | a new recorder is not recording, has no audio, start time or thread, and keeps the given language, Spanish when none is given |
| Recorder.VoiceRecorder.SetLanguage | src/recorder.py:116-125 | the language hint is overwritten with the given code, which may be None for auto-detection |
| Recorder.VoiceRecorder.StartRecording | src/recorder.py:127-146 | while recording, returns false and changes nothing. Otherwise returns true, sets the flag, empties the buffer, records the start time and spawns a new thread |
| Recorder.VoiceRecorder.RecordAudio | src/recorder.py:176-203 | appends exactly the captured chunks, in read order, when the flag is up and the stream opens. A stream that fails to open appends nothing and drops the flag. A failed close drops the flag only when a failed read ended the loop |
| Recorder.VoiceRecorder.ProcessAudio | src/recorder.py:205-271 | result, clipboard and engine calls are those of Deliver on the buffer and current language. A returned transcript is announced with its preview |
| Recorder.VoiceRecorder.StopRecording | src/recorder.py:148-174 | when not recording, returns None and changes nothing. Otherwise drops the flag and leaves the buffer and language alone. An empty buffer means no engine call and no copy; a non-empty one is processed as Deliver says |
| Recorder.RecordSession | src/recorder.py:127-174 | a whole session: start always succeeds. When the capture dropped the flag (failed open, or failed close after a failed read), stop is refused and nothing is transcribed or copied. Otherwise the result is Deliver of the captured chunks, and only the result is copied. The engine sees the session's language |
| Recorder.LanguageReachesEngine | src/recorder.py:116-125 | after set_language, the next session calls the engine exactly when the capture left the flag up, chunks were captured and the WAV write succeeded; that one call carries the new code with the joined captured chunks (the call at src/recorder.py:229) |
| SimpleRecorder.SimpleVoiceRecorder.constructor | main.py:40-48 | a new recorder is not recording and has no audio and no thread |
| SimpleRecorder.SimpleVoiceRecorder.StartRecording | main.py:74-86 | while recording, changes nothing. Otherwise sets the flag, empties the buffer and spawns a new thread |
| SimpleRecorder.SimpleVoiceRecorder.RecordAudio | main.py:107-139 | appends exactly the captured chunks in read order when the flag is up and the stream opens. A failed open drops the flag; a failed close drops it only when a failed read ended the loop |
| SimpleRecorder.SimpleVoiceRecorder.ProcessAudio | main.py:141-192 | clipboard and engine calls are those of Deliver on the buffer with the fixed Spanish hint. Only a non-blank stripped transcription is copied |
| SimpleRecorder.SimpleVoiceRecorder.StopRecording | main.py:88-105 | when not recording, changes nothing. Otherwise drops the flag and processes only a non-empty buffer |
| SimpleRecorder.SimpleVoiceRecorder.ToggleRecording | main.py:194-199 | flips the flag. Stopping processes the buffer; starting empties it and spawns a thread |
| SimpleRecorder.ToggleTwiceFromIdle | main.py:194-199 | from a fresh recorder, the first toggle records. The second ends recording exactly when the capture left the flag up (the stream opened, and it closed cleanly or stop ended the loop); then the clipboard receives Deliver's copy of the captured chunks. Otherwise nothing is copied |

## Left out

- PyAudio device handling, the Whisper model load and Whisper's internals are not modelled. The microphone is an input sequence and the model is an uninterpreted function. Whisper's fixed decoding parameters (temperature 0, beam size 1, the thresholds) belong to that function and are not modelled separately.
- Real threading is not modelled. The capture thread is assumed to open the stream before stop is pressed, and a loop ended by a failed read finishes (including its close) before stop is pressed. The capture thread runs to completion between start and stop, so a `start_recording` from another thread while `_process_audio` runs cannot be expressed, and neither can a race on `audio_data`.
- WAV writing, the temporary directory and `os.remove` are reduced to one success flag. The header constants (1 channel, 2-byte samples, 16000 Hz, 1024-frame reads) are recorded as constants only.
- The macOS notifications (except for the preview text) and the logging setup are left out, because they are subprocess and logging side effects. The terminal variant's console printing is left out for the same reason.
- The recording-duration computations are left out because they are floating point. The start time is kept as an opaque `real`.
- `cleanup`, `get_log_file_path`, the hotkey listener and `main()` are left out. They release resources or wire the hotkey and hold no session state.

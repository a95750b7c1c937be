/** The audio-to-clipboard decision shared by both recorders' `_process_audio`:
    join the chunks, write the WAV file, call Whisper, strip the text, and
    copy a non-empty transcript to the clipboard. The file system, Whisper
    and the clipboard are given as a `Services` value. */
module Pipeline {

  import opened Optional
  import opened Audio
  import opened Text

  /** What `whisper_model.transcribe` does: returns a text, or raises. */
  datatype Transcription = Transcribed(text: string) | EngineFailure

  /** The collaborators `_process_audio` calls: whether writing the
      temporary WAV file succeeds, the Whisper model as a function of the
      WAV samples and the language hint (`None` asks it to detect the
      language), and whether `pyperclip.copy` succeeds. */
  datatype Services = Services(
    wavWritable: bool,
    transcribe: (seq<byte>, Option<string>) -> Transcription,
    clipboardWorks: bool)

  /** One call of the engine: the samples written to the WAV file and the
      language passed with them. */
  datatype EngineCall = EngineCall(audio: seq<byte>, language: Option<string>)

  /** The observable effects of one processing step: the engine calls made,
      the texts copied to the clipboard, and the transcript returned. */
  datatype Delivery = Delivery(calls: seq<EngineCall>, copied: seq<string>, result: Option<string>)

  /** One run of `_process_audio` over the recorded chunks. Any exception on
      the way (WAV write, engine, clipboard) ends it with no result. */
  function Deliver(chunks: seq<Chunk>, language: Option<string>, svc: Services): (d: Delivery)
    // no audio: nothing is written, transcribed or copied
    ensures chunks == [] ==> d == Delivery([], [], None)
    // the engine runs at most once, on the in-order join of the chunks and the current language
    ensures d.calls == [] || d.calls == [EngineCall(Concat(chunks), language)]
    ensures d.calls != [] <==> chunks != [] && svc.wavWritable
    // what reaches the clipboard is exactly the returned transcript, once
    ensures d.copied == (if d.result.Some? then [d.result.value] else [])
    // a transcript is returned exactly when the engine produced text that is not all whitespace
    // and the copy succeeded; it is the engine text with the whitespace stripped
    ensures d.result.Some? <==>
      d.calls != [] && svc.transcribe(Concat(chunks), language).Transcribed?
      && !AllSpace(svc.transcribe(Concat(chunks), language).text) && svc.clipboardWorks
    ensures d.result.Some? ==>
      d.result.value == Strip(svc.transcribe(Concat(chunks), language).text) && d.result.value != []
  {
    if chunks == [] || !svc.wavWritable then Delivery([], [], None)
    else
      var audio := Concat(chunks);
      var calls := [EngineCall(audio, language)];
      match svc.transcribe(audio, language)
      case EngineFailure => Delivery(calls, [], None)
      case Transcribed(text) =>
        var transcript := Strip(text);
        StripEmptyIff(text);
        if transcript == [] || !svc.clipboardWorks then Delivery(calls, [], None)
        else Delivery(calls, [transcript], Some(transcript))
  }

  /** A stub engine that always answers with the same text. */
  function Stub(text: string, copies: bool): Services
  {
    Services(true, (audio, language) => Transcribed(text), copies)
  }

  /** Speech: an engine answering " hello world\n" leads to "hello world"
      being returned and copied exactly once, after one engine call. */
  lemma SpeechIsCopiedOnce(chunks: seq<Chunk>, language: Option<string>)
    requires chunks != []
    ensures Deliver(chunks, language, Stub(" hello world\n", true))
      == Delivery([EngineCall(Concat(chunks), language)], ["hello world"], Some("hello world"))
  {
    var text := " hello world\n";
    assert Strip(text) == "hello world" by {
      assert IsSpace(text[0]) && IsSpace(text[12]);
      assert text[1] == 'h' && text[11] == 'd';
      StripIsUnique(text, 1, 12);
      assert text[1..12] == "hello world";
    }
    var svc := Stub(text, true);
    assert svc.transcribe(Concat(chunks), language) == Transcribed(text);
  }

  /** Silence: an engine answering only whitespace is called once, and
      nothing is returned or copied. */
  lemma SilenceIsNotCopied(chunks: seq<Chunk>, language: Option<string>, blank: string)
    requires chunks != [] && AllSpace(blank)
    ensures Deliver(chunks, language, Stub(blank, true))
      == Delivery([EngineCall(Concat(chunks), language)], [], None)
  {
  }

  /** A failing engine: called once, nothing returned or copied. */
  lemma EngineFailureIsNotCopied(chunks: seq<Chunk>, language: Option<string>)
    requires chunks != []
    ensures Deliver(chunks, language, Services(true, (audio, lang) => EngineFailure, true))
      == Delivery([EngineCall(Concat(chunks), language)], [], None)
  {
  }

  /** A failing clipboard: the engine text is not returned although it is
      not blank, because `pyperclip.copy` raised before the return. */
  lemma ClipboardFailureLosesTranscript(chunks: seq<Chunk>, language: Option<string>, text: string)
    requires chunks != [] && !AllSpace(text)
    ensures Deliver(chunks, language, Stub(text, false)).result == None
    ensures Deliver(chunks, language, Stub(text, false)).calls != []
  {
  }
}

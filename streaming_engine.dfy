/** `StreamingEngine` of `daemon/src/transcription/streaming_engine.rs`: a
    rolling window over the incoming samples. Samples collect in a buffer until
    it holds a full window; the window is then handed to the recogniser and the
    buffer keeps only its tail, so consecutive windows overlap. A recognised
    text is passed on only when it is non-empty and differs from the last one.

    The whisper model is an oracle: `recognize(window, language)` is the text
    the recogniser produces for a window, or its failure. Loading the model is
    an external step whose outcome is an argument. The source sets the model
    context, the model state and `model_loaded` together (lines 54-56), so one
    flag, `loaded`, stands for all three. */
module StreamingEngine {
  import opened Common

  datatype Engine = Engine(
    loaded: bool,
    lengthSamples: nat,
    keepSamples: nat,
    buffer: seq<real>,
    lastText: string,
    running: bool,
    language: string)

  /** `StreamingEngine::new`: window and overlap in samples, rounded down;
      `step_ms` is accepted and ignored. */
  function NewEngine(language: string, stepMs: nat, lengthMs: nat, keepMs: nat, sampleRate: nat): (e: Engine)
    ensures !e.loaded && !e.running && e.buffer == [] && e.lastText == [] && e.language == language
    ensures e.lengthSamples * 1000 <= lengthMs * sampleRate < (e.lengthSamples + 1) * 1000
    ensures e.keepSamples * 1000 <= keepMs * sampleRate < (e.keepSamples + 1) * 1000
  {
    Engine(false, lengthMs * sampleRate / 1000, keepMs * sampleRate / 1000, [], [], false, language)
  }

  /** `load_model`: on success the engine is loaded; a failure changes
      nothing. */
  function LoadStep(e: Engine, load: Outcome): (Engine, Outcome)
  {
    if load.Fail? then (e, load) else (e.(loaded := true), Pass)
  }

  /** The refusal of `start` before `load_model`. */
  const NotLoaded: string := "Model not loaded"

  /** `start`. */
  function StartStep(e: Engine): (Engine, Outcome)
  {
    if !e.loaded then (e, Fail(NotLoaded))
    else (e.(buffer := [], lastText := [], running := true), Pass)
  }

  /** The end of `process_window`: the recognised text, trimmed, is new when
      it is non-empty and differs from the last one; it then becomes the last
      one. */
  function Fresh(lastText: string, raw: string): (string, Option<string>)
  {
    var t := Trim(raw);
    if t != [] && t != lastText then (t, Some(t)) else (lastText, None)
  }

  /** `send_audio`. Below a full window the chunk is only buffered. With a full
      window the recogniser runs; if it fails, the failure is returned and the
      buffer keeps the whole window. Otherwise the buffer drops its first
      `lengthSamples - keepSamples` samples. The subtraction is on `usize` in
      the source, so callers must keep `keepSamples <= lengthSamples`. */
  function SendStep(e: Engine, chunk: seq<real>, recognize: Recognizer): (r: (Engine, Result<Option<string>>))
    requires e.keepSamples <= e.lengthSamples
    ensures r.0.lengthSamples == e.lengthSamples && r.0.keepSamples == e.keepSamples
    ensures r.0.running == e.running && r.0.loaded == e.loaded && r.0.language == e.language
  {
    if !e.running || !e.loaded then (e, Ok(None))
    else
      var b := e.buffer + chunk;
      if |b| < e.lengthSamples then (e.(buffer := b), Ok(None))
      else
        match recognize(b, e.language)
        case Err(m) => (e.(buffer := b), Err(m))
        case Ok(raw) =>
          var f := Fresh(e.lastText, raw);
          (e.(buffer := b[e.lengthSamples - e.keepSamples..], lastText := f.0), Ok(f.1))
  }

  /** `stop`. */
  function StopStep(e: Engine): Engine
  {
    e.(running := false, buffer := [], lastText := [])
  }

  /** `set_language`. */
  function LanguageStep(e: Engine, language: string): Engine
  {
    e.(language := language)
  }

  // ---------------------------------------------------------------------------
  // Properties

  /** The sizes of the two tests of `new`; the step does not matter. */
  lemma NewEngineSizes(stepA: nat, stepB: nat)
    ensures NewEngine("en", stepA, 10000, 500, 16000).lengthSamples == 160000
    ensures NewEngine("en", stepA, 10000, 500, 16000).keepSamples == 8000
    ensures NewEngine("es", stepA, 5000, 500, 16000).lengthSamples == 80000
    ensures NewEngine("en", stepA, 10000, 500, 16000) == NewEngine("en", stepB, 10000, 500, 16000)
  {
  }

  /** `start` fails exactly when no model is loaded, and then changes nothing;
      otherwise it leaves a running engine with nothing buffered or seen. */
  lemma StartEffect(e: Engine)
    ensures StartStep(e).1.Fail? <==> !e.loaded
    ensures !e.loaded ==> StartStep(e).0 == e && StartStep(e).1 == Fail(NotLoaded)
    ensures e.loaded ==> var s := StartStep(e).0;
      s.running && s.buffer == [] && s.lastText == [] &&
      s.loaded && s.language == e.language &&
      s.lengthSamples == e.lengthSamples && s.keepSamples == e.keepSamples
  {
  }

  /** A new engine cannot start before a successful load, and can after one. */
  lemma StartNeedsLoad(e: Engine, load: Outcome)
    requires !e.loaded
    ensures StartStep(e).1.Fail?
    ensures StartStep(LoadStep(e, load).0).1.Pass? <==> load.Pass?
  {
  }

  /** A stopped or unloaded engine ignores audio: no text and no change. */
  lemma IdleIgnoresAudio(e: Engine, chunk: seq<real>, recognize: Recognizer)
    requires e.keepSamples <= e.lengthSamples
    requires !e.running || !e.loaded
    ensures SendStep(e, chunk, recognize) == (e, Ok(None))
  {
  }

  /** Below a full window the chunk is appended and nothing else happens. */
  lemma PartialWindowBuffers(e: Engine, chunk: seq<real>, recognize: Recognizer)
    requires e.keepSamples <= e.lengthSamples
    requires e.running && e.loaded && |e.buffer| + |chunk| < e.lengthSamples
    ensures SendStep(e, chunk, recognize) == (e.(buffer := e.buffer + chunk), Ok(None))
  {
  }

  /** With a full window the recogniser sees the buffer with the chunk
      appended. On success the new buffer is that window without its first
      `lengthSamples - keepSamples` samples, and the recognised text, trimmed,
      is passed on exactly when it is non-empty and differs from the last one,
      which it then replaces; on failure the buffer is the whole window and the
      failure is returned. Nothing but the buffer and the last text changes. */
  lemma FullWindow(e: Engine, chunk: seq<real>, recognize: Recognizer)
    requires e.keepSamples <= e.lengthSamples
    requires e.running && e.loaded && |e.buffer| + |chunk| >= e.lengthSamples
    ensures var w := e.buffer + chunk;
      var (n, r) := SendStep(e, chunk, recognize);
      n.running && n.loaded && n.language == e.language &&
      n.lengthSamples == e.lengthSamples && n.keepSamples == e.keepSamples &&
      (recognize(w, e.language).Err? ==>
         n.buffer == w && n.lastText == e.lastText && r == Err(recognize(w, e.language).msg)) &&
      (recognize(w, e.language).Ok? ==>
         var t := Trim(recognize(w, e.language).value);
         |n.buffer| == |w| - (e.lengthSamples - e.keepSamples) &&
         (forall k :: 0 <= k < |n.buffer| ==> n.buffer[k] == w[k + e.lengthSamples - e.keepSamples]) &&
         (r == Ok(Some(t)) <==> t != [] && t != e.lastText) &&
         (t != [] && t != e.lastText ==> n.lastText == t) &&
         (t == [] || t == e.lastText ==> r == Ok(None) && n.lastText == e.lastText))
  {
  }

  /** When the window was exactly full, the samples kept are its last
      `keepSamples`, so the next window starts with them. */
  lemma KeepsOverlap(e: Engine, chunk: seq<real>, recognize: Recognizer)
    requires e.keepSamples <= e.lengthSamples
    requires e.running && e.loaded && |e.buffer| + |chunk| == e.lengthSamples
    requires recognize(e.buffer + chunk, e.language).Ok?
    ensures var n := SendStep(e, chunk, recognize).0;
      n.buffer == (e.buffer + chunk)[e.lengthSamples - e.keepSamples..] && |n.buffer| == e.keepSamples
  {
  }

  /** A text is passed on exactly when, trimmed, it is non-empty and differs
      from the last one; what is passed on becomes the last one. */
  lemma FreshIff(lastText: string, raw: string)
    ensures Fresh(lastText, raw).1.Some? <==> Trim(raw) != [] && Trim(raw) != lastText
    ensures Fresh(lastText, raw).1.Some? ==>
      Fresh(lastText, raw).1.value == Trim(raw) && Fresh(lastText, raw).0 == Trim(raw)
    ensures Fresh(lastText, raw).1.None? ==> Fresh(lastText, raw).0 == lastText
  {
  }

  /** The same text twice in a row is passed on at most once. */
  lemma RepeatSuppressed(lastText: string, raw: string)
    ensures Fresh(Fresh(lastText, raw).0, raw).1 == None
  {
  }

  /** `stop` clears the running flag, the buffer and the last text, keeps the
      model, and leaves an engine that ignores audio. */
  lemma StopEffect(e: Engine, chunk: seq<real>, recognize: Recognizer)
    requires e.keepSamples <= e.lengthSamples
    ensures var s := StopStep(e);
      !s.running && s.buffer == [] && s.lastText == [] && s.loaded == e.loaded &&
      SendStep(s, chunk, recognize) == (s, Ok(None))
  {
  }

  /** `set_language` changes the language and nothing else. */
  lemma SetLanguageOnly(e: Engine, language: string)
    ensures LanguageStep(e, language).language == language
    ensures LanguageStep(e, language).(language := e.language) == e
  {
  }

  // ---------------------------------------------------------------------------
  // The object the daemon holds

  class StreamingEngine {
    var loaded: bool
    const lengthSamples: nat
    const keepSamples: nat
    var buffer: seq<real>
    var lastText: string
    var running: bool
    var language: string

    function View(): Engine
      reads this
    {
      Engine(loaded, lengthSamples, keepSamples, buffer, lastText, running, language)
    }

    /** `StreamingEngine::new`. */
    constructor (language: string, stepMs: nat, lengthMs: nat, keepMs: nat, sampleRate: nat)
      ensures View() == NewEngine(language, stepMs, lengthMs, keepMs, sampleRate)
    {
      loaded := false;
      lengthSamples := lengthMs * sampleRate / 1000;
      keepSamples := keepMs * sampleRate / 1000;
      buffer := [];
      lastText := [];
      running := false;
      this.language := language;
    }

    /** `load_model`, with the outcome of reading the model file given. */
    method LoadModel(load: Outcome) returns (r: Outcome)
      modifies this
      ensures (View(), r) == LoadStep(old(View()), load)
    {
      if load.Fail? {
        return load;
      }
      loaded := true;
      r := Pass;
    }

    /** `start`. */
    method Start() returns (r: Outcome)
      modifies this
      ensures (View(), r) == StartStep(old(View()))
    {
      if !loaded {
        return Fail(NotLoaded);
      }
      buffer := [];
      lastText := [];
      running := true;
      r := Pass;
    }

    /** `send_audio`. */
    method SendAudio(chunk: seq<real>, recognize: Recognizer) returns (r: Result<Option<string>>)
      requires keepSamples <= lengthSamples
      modifies this
      ensures (View(), r) == SendStep(old(View()), chunk, recognize)
    {
      ghost var e := View();
      if !running || !loaded {
        return Ok(None);
      }
      var window := buffer + chunk;
      buffer := window;
      if |window| < lengthSamples {
        assert SendStep(e, chunk, recognize) == (e.(buffer := window), Ok(None));
        return Ok(None);
      }
      var raw := recognize(window, language);
      assert raw == recognize(e.buffer + chunk, e.language);
      if raw.Err? {
        assert SendStep(e, chunk, recognize) == (e.(buffer := window), Err(raw.msg));
        return Err(raw.msg);
      }
      ghost var f := Fresh(lastText, raw.value);
      assert SendStep(e, chunk, recognize) == (e.(buffer := window[lengthSamples - keepSamples..], lastText := f.0), Ok(f.1));
      var text := Trim(raw.value);
      r := Ok(None);
      if text != [] && text != lastText {
        lastText := text;
        r := Ok(Some(text));
      }
      buffer := window[lengthSamples - keepSamples..];
      assert lastText == f.0 && r == Ok(f.1);
    }

    /** `stop`. */
    method Stop()
      modifies this
      ensures View() == StopStep(old(View()))
    {
      running := false;
      buffer := [];
      lastText := [];
    }

    /** `set_language`. */
    method SetLanguage(language: string)
      modifies this
      ensures View() == LanguageStep(old(View()), language)
    {
      this.language := language;
    }
  }
}

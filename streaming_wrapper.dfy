/** `StreamingWrapper` of `daemon/src/transcription/streaming_wrapper.rs`: the
    daemon's rolling three-second window with half a second of overlap. Audio
    collects in a buffer; once it holds a full window the window is recognised
    (always as English) and the buffer keeps its tail. A recognised text is
    passed on only when it is non-empty and differs from the accumulated one.

    The whisper context and state are set together by `load_model` (lines
    46-47) and never cleared, so one flag, `loaded`, stands for both. Loading
    the model is an external step whose outcome is an argument; the recogniser
    is the oracle `recognize`. */
module StreamingWrapper {
  import opened Common

  /** The language the window is always recognised in (line 141). */
  const English: string := "en"

  datatype Wrapper = Wrapper(
    loaded: bool,
    windowSamples: nat,
    overlapSamples: nat,
    buffer: seq<real>,
    accumulated: string,
    active: bool)

  /** What every reachable wrapper satisfies: the overlap fits in the window,
      so the skip of line 81 never underflows, and samples are only ever
      buffered once a model is loaded. */
  predicate Valid(w: Wrapper)
  {
    w.overlapSamples <= w.windowSamples && (w.buffer != [] ==> w.loaded)
  }

  /** `StreamingWrapper::new`: 3000 ms of window and 500 ms of overlap at the
      given rate, rounded down. */
  function NewWrapper(sampleRate: nat): (w: Wrapper)
    ensures Valid(w) && !w.loaded && !w.active && w.buffer == [] && w.accumulated == []
    ensures w.windowSamples == 3 * sampleRate
    ensures w.overlapSamples * 2 <= sampleRate < w.overlapSamples * 2 + 2
  {
    Wrapper(false, 3000 * sampleRate / 1000, 500 * sampleRate / 1000, [], [], false)
  }

  /** `load_model`: on success the model is loaded; a failure changes nothing. */
  function LoadStep(w: Wrapper, load: Outcome): (Wrapper, Outcome)
  {
    if load.Fail? then (w, load) else (w.(loaded := true), Pass)
  }

  /** `activate`. */
  function ActivateStep(w: Wrapper): Wrapper
  {
    w.(buffer := [], accumulated := [], active := true)
  }

  /** `deactivate`. */
  function DeactivateStep(w: Wrapper): Wrapper
  {
    w.(active := false, buffer := [])
  }

  /** `transcribe_window`: fails without a model, passes on a recogniser
      failure, and otherwise returns the recognised text trimmed. */
  function Transcription(loaded: bool, window: seq<real>, recognize: Recognizer): (r: Result<string>)
    ensures !loaded ==> r == Err("WhisperState not initialized")
    ensures loaded ==> (r.Err? <==> recognize(window, English).Err?)
    ensures r.Ok? ==> r.value == [] || (!IsSpace(r.value[0]) && !IsSpace(r.value[|r.value| - 1]))
  {
    if !loaded then Err("WhisperState not initialized")
    else
      match recognize(window, English)
      case Err(m) => Err(m)
      case Ok(raw) =>
        TrimEdges(raw);
        Ok(Trim(raw))
  }

  /** The filter of lines 85 and 107: a text is passed on when it is non-empty
      and differs from the accumulated one. */
  predicate Novel(text: string, accumulated: string)
  {
    text != [] && text != accumulated
  }

  /** `process_chunk`. */
  function ChunkStep(w: Wrapper, chunk: seq<real>, recognize: Recognizer): (Wrapper, Result<Option<string>>)
    requires w.overlapSamples <= w.windowSamples
  {
    if !w.active || !w.loaded then (w, Ok(None))
    else
      var b := w.buffer + chunk;
      if |b| < w.windowSamples then (w.(buffer := b), Ok(None))
      else
        match Transcription(w.loaded, b, recognize)
        case Err(m) => (w.(buffer := b), Err(m))
        case Ok(t) =>
          var rest := b[w.windowSamples - w.overlapSamples..];
          if Novel(t, w.accumulated) then (w.(buffer := rest, accumulated := t), Ok(Some(t)))
          else (w.(buffer := rest), Ok(None))
  }

  /** `finalize`. */
  function FinalizeStep(w: Wrapper, recognize: Recognizer): (Wrapper, Result<Option<string>>)
  {
    if !w.active then (w, Ok(None))
    else if w.buffer == [] then (DeactivateStep(w), Ok(None))
    else
      match Transcription(w.loaded, w.buffer, recognize)
      case Err(m) => (w, Err(m))
      case Ok(t) => (DeactivateStep(w), Ok(if Novel(t, w.accumulated) then Some(t) else None))
  }

  // ---------------------------------------------------------------------------
  // Properties

  /** The sizes of the test of `new` at 16 kHz. */
  lemma SixteenKilohertz()
    ensures NewWrapper(16000).windowSamples == 48000
    ensures NewWrapper(16000).overlapSamples == 8000
  {
  }

  /** Every step keeps a wrapper well-formed. */
  lemma StepsKeepValid(w: Wrapper, load: Outcome, chunk: seq<real>, recognize: Recognizer)
    requires Valid(w)
    ensures Valid(LoadStep(w, load).0)
    ensures Valid(ActivateStep(w)) && Valid(DeactivateStep(w))
    ensures Valid(ChunkStep(w, chunk, recognize).0)
    ensures Valid(FinalizeStep(w, recognize).0)
  {
  }

  /** `activate` leaves an active wrapper with nothing buffered or
      accumulated, and keeps the model and the sizes. */
  lemma ActivateEffect(w: Wrapper)
    ensures var a := ActivateStep(w);
      a.active && a.buffer == [] && a.accumulated == [] &&
      a.loaded == w.loaded && a.windowSamples == w.windowSamples && a.overlapSamples == w.overlapSamples
  {
  }

  /** An inactive wrapper, or one without a model, ignores audio: no text and
      no change at all, the buffer included. */
  lemma IdleIgnoresChunk(w: Wrapper, chunk: seq<real>, recognize: Recognizer)
    requires w.overlapSamples <= w.windowSamples
    requires !w.active || !w.loaded
    ensures ChunkStep(w, chunk, recognize) == (w, Ok(None))
  {
  }

  /** Activating a new wrapper without loading a model and sending 100 samples
      leaves the buffer empty, where the test at lines 211-222 expects 100. */
  lemma UnloadedBufferStaysEmpty(chunk: seq<real>, recognize: Recognizer)
    requires |chunk| == 100
    ensures var a := ActivateStep(NewWrapper(16000));
      ChunkStep(a, chunk, recognize) == (a, Ok(None)) && |ChunkStep(a, chunk, recognize).0.buffer| == 0
  {
  }

  /** Below a full window the chunk is appended and nothing else happens. */
  lemma PartialWindowBuffers(w: Wrapper, chunk: seq<real>, recognize: Recognizer)
    requires w.overlapSamples <= w.windowSamples
    requires w.active && w.loaded && |w.buffer| + |chunk| < w.windowSamples
    ensures ChunkStep(w, chunk, recognize) == (w.(buffer := w.buffer + chunk), Ok(None))
  {
  }

  /** With a full window the recogniser sees the buffer with the chunk
      appended, in English. A failure is returned and the whole window stays
      buffered. On success the buffer loses its first `window - overlap`
      samples, and a text is passed on exactly when it is new, becoming the
      accumulated one. */
  lemma FullWindow(w: Wrapper, chunk: seq<real>, recognize: Recognizer)
    requires w.overlapSamples <= w.windowSamples
    requires w.active && w.loaded && |w.buffer| + |chunk| >= w.windowSamples
    ensures var b := w.buffer + chunk;
      var (n, r) := ChunkStep(w, chunk, recognize);
      n.active && n.loaded && n.windowSamples == w.windowSamples && n.overlapSamples == w.overlapSamples &&
      (recognize(b, English).Err? ==>
         n.buffer == b && n.accumulated == w.accumulated && r == Err(recognize(b, English).msg)) &&
      (recognize(b, English).Ok? ==>
         var t := Trim(recognize(b, English).value);
         |n.buffer| == |b| - (w.windowSamples - w.overlapSamples) &&
         (forall k :: 0 <= k < |n.buffer| ==> n.buffer[k] == b[k + w.windowSamples - w.overlapSamples]) &&
         (r == Ok(Some(t)) <==> Novel(t, w.accumulated)) &&
         (Novel(t, w.accumulated) ==> n.accumulated == t) &&
         (!Novel(t, w.accumulated) ==> r == Ok(None) && n.accumulated == w.accumulated))
  {
  }

  /** When the window was exactly full, the samples kept are its last
      `overlapSamples`. */
  lemma KeepsOverlap(w: Wrapper, chunk: seq<real>, recognize: Recognizer)
    requires w.overlapSamples <= w.windowSamples
    requires w.active && w.loaded && |w.buffer| + |chunk| == w.windowSamples
    requires recognize(w.buffer + chunk, English).Ok?
    ensures ChunkStep(w, chunk, recognize).0.buffer == (w.buffer + chunk)[w.windowSamples - w.overlapSamples..]
    ensures |ChunkStep(w, chunk, recognize).0.buffer| == w.overlapSamples
  {
    var b := w.buffer + chunk;
    assert Transcription(w.loaded, b, recognize).Ok?;
    assert ChunkStep(w, chunk, recognize).0.buffer == b[w.windowSamples - w.overlapSamples..];
  }

  /** A text passed on by one chunk is not passed on by the next one. */
  lemma NoRepeat(w: Wrapper, c1: seq<real>, c2: seq<real>, recognize: Recognizer, t: string)
    requires w.overlapSamples <= w.windowSamples
    requires ChunkStep(w, c1, recognize).1 == Ok(Some(t))
    ensures ChunkStep(ChunkStep(w, c1, recognize).0, c2, recognize).1 != Ok(Some(t))
    ensures FinalizeStep(ChunkStep(w, c1, recognize).0, recognize).1 != Ok(Some(t))
  {
    EmittedIsAccumulated(w, c1, recognize);
    AccumulatedNotEmitted(ChunkStep(w, c1, recognize).0, c2, recognize);
  }

  /** A text passed on becomes the accumulated one. */
  lemma EmittedIsAccumulated(w: Wrapper, chunk: seq<real>, recognize: Recognizer)
    requires w.overlapSamples <= w.windowSamples
    ensures var (n, r) := ChunkStep(w, chunk, recognize);
      n.overlapSamples <= n.windowSamples && (r.Ok? && r.value.Some? ==> n.accumulated == r.value.value)
  {
  }

  /** The accumulated text is never passed on again. */
  lemma AccumulatedNotEmitted(w: Wrapper, chunk: seq<real>, recognize: Recognizer)
    requires w.overlapSamples <= w.windowSamples
    ensures ChunkStep(w, chunk, recognize).1 != Ok(Some(w.accumulated))
    ensures FinalizeStep(w, recognize).1 != Ok(Some(w.accumulated))
  {
  }

  /** `finalize`: an inactive wrapper answers nothing and is unchanged. An
      active one recognises what is left only when something is; a failure is
      returned with the wrapper unchanged and still active; otherwise the
      wrapper ends inactive with an empty buffer and the text is passed on
      exactly when it is new. The accumulated text is never updated. */
  lemma FinalizeEffect(w: Wrapper, recognize: Recognizer)
    ensures !w.active ==> FinalizeStep(w, recognize) == (w, Ok(None))
    ensures w.active && w.buffer == [] ==> FinalizeStep(w, recognize) == (DeactivateStep(w), Ok(None))
    ensures w.active && w.buffer != [] ==>
      var (n, r) := FinalizeStep(w, recognize);
      var t := Transcription(w.loaded, w.buffer, recognize);
      (t.Err? ==> n == w && r == Err(t.msg)) &&
      (t.Ok? ==> n == DeactivateStep(w) && (r == Ok(Some(t.value)) <==> Novel(t.value, w.accumulated)) &&
                 (!Novel(t.value, w.accumulated) ==> r == Ok(None)))
    ensures FinalizeStep(w, recognize).0.accumulated == w.accumulated
  {
  }

  /** `deactivate` clears the flag and the buffer and keeps the accumulated
      text; the wrapper then ignores audio. */
  lemma DeactivateEffect(w: Wrapper, chunk: seq<real>, recognize: Recognizer)
    requires w.overlapSamples <= w.windowSamples
    ensures var d := DeactivateStep(w);
      !d.active && d.buffer == [] && d.accumulated == w.accumulated && d.loaded == w.loaded &&
      ChunkStep(d, chunk, recognize) == (d, Ok(None)) && FinalizeStep(d, recognize) == (d, Ok(None))
  {
  }

  // ---------------------------------------------------------------------------
  // The object the daemon holds

  class StreamingWrapper {
    var loaded: bool
    const windowSamples: nat
    const overlapSamples: nat
    var buffer: seq<real>
    var accumulated: string
    var active: bool

    function View(): Wrapper
      reads this
    {
      Wrapper(loaded, windowSamples, overlapSamples, buffer, accumulated, active)
    }

    /** `StreamingWrapper::new`. */
    constructor (sampleRate: nat)
      ensures View() == NewWrapper(sampleRate)
    {
      loaded := false;
      windowSamples := 3000 * sampleRate / 1000;
      overlapSamples := 500 * sampleRate / 1000;
      buffer := [];
      accumulated := [];
      active := false;
    }

    /** `load_model`, with the outcome of reading the model file given. */
    method LoadModel(load: Outcome) returns (r: Outcome)
      modifies this
      ensures (View(), r) == LoadStep(old(View()), load)
    {
      if load.Fail? {
        return load;
      }
      loaded := true;
      r := Pass;
    }

    /** `activate`. */
    method Activate()
      modifies this
      ensures View() == ActivateStep(old(View()))
    {
      buffer := [];
      accumulated := [];
      active := true;
    }

    /** `transcribe_window`: recognises the buffer. */
    method TranscribeWindow(recognize: Recognizer) returns (r: Result<string>)
      ensures r == Transcription(loaded, buffer, recognize)
    {
      if !loaded {
        return Err("WhisperState not initialized");
      }
      var raw := recognize(buffer, English);
      if raw.Err? {
        return Err(raw.msg);
      }
      r := Ok(Trim(raw.value));
    }

    /** `process_chunk`. */
    method ProcessChunk(chunk: seq<real>, recognize: Recognizer) returns (r: Result<Option<string>>)
      requires overlapSamples <= windowSamples
      modifies this
      ensures (View(), r) == ChunkStep(old(View()), chunk, recognize)
    {
      ghost var w := View();
      if !active || !loaded {
        return Ok(None);
      }
      buffer := buffer + chunk;
      if |buffer| < windowSamples {
        return Ok(None);
      }
      var text := TranscribeWindow(recognize);
      if text.Err? {
        assert ChunkStep(w, chunk, recognize) == (w.(buffer := buffer), Err(text.msg));
        return Err(text.msg);
      }
      ghost var window := buffer;
      buffer := buffer[windowSamples - overlapSamples..];
      r := Ok(None);
      if Novel(text.value, accumulated) {
        accumulated := text.value;
        r := Ok(Some(text.value));
      }
      assert ChunkStep(w, chunk, recognize) == (View(), r) by {
        assert window == w.buffer + chunk;
      }
    }

    /** `finalize`. */
    method Finalize(recognize: Recognizer) returns (r: Result<Option<string>>)
      modifies this
      ensures (View(), r) == FinalizeStep(old(View()), recognize)
    {
      if !active {
        return Ok(None);
      }
      var final: Option<string> := None;
      if buffer != [] {
        var text := TranscribeWindow(recognize);
        if text.Err? {
          return Err(text.msg);
        }
        final := Some(text.value);
      }
      r := Ok(None);
      if final.Some? && Novel(final.value, accumulated) {
        r := Ok(final);
      }
      Deactivate();
    }

    /** `deactivate`. */
    method Deactivate()
      modifies this
      ensures View() == DeactivateStep(old(View()))
    {
      active := false;
      buffer := [];
    }

    /** `is_active`. */
    function IsActive(): (b: bool)
      reads this
      ensures b <==> View().active
    {
      active
    }
  }
}

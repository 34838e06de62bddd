/** The speech segmenter of `daemon/src/vad/speech_detector.rs`: a three-state
    machine that buffers audio from the first speech chunk until silence has
    lasted `silence_duration_ms`, then emits the buffer scaled by `gain`.

    The level computation and threshold test of the voice-activity detector are
    not modelled: the classification of a chunk is an input, `classify(samples,
    wasSpeaking)`. The clock is the `now` argument, in milliseconds. */
module SpeechSegmenter {
  import opened Common

  datatype SpeechState = Idle | Speaking | SilenceDetected

  /** The detector's fields, as a value. */
  datatype Detector = Detector(
    state: SpeechState,
    speechStart: Option<int>,
    silenceStart: Option<int>,
    buffer: seq<real>,
    silenceDurationMs: nat,
    gain: real)

  /** `SpeechDetector::new` (the thresholds only configure the classifier). */
  function NewDetector(silenceDurationMs: nat, gain: real): (d: Detector)
    ensures d.state == Idle && d.speechStart == None && d.silenceStart == None
    ensures d.buffer == [] && d.silenceDurationMs == silenceDurationMs && d.gain == gain
  {
    Detector(Idle, None, None, [], silenceDurationMs, gain)
  }

  /** The "was speaking" argument handed to the classifier: only `Speaking`
      counts, `SilenceDetected` does not. */
  predicate WasSpeaking(s: SpeechState)
  {
    s == Speaking
  }

  /** `silence_duration_exceeded`: a recorded silence start at least
      `silenceDurationMs` ago. */
  predicate SilenceExceeded(d: Detector, now: int)
  {
    match d.silenceStart
    case None => false
    case Some(t) => now - t >= d.silenceDurationMs
  }

  /** Every sample multiplied by the gain. */
  function Amplify(samples: seq<real>, gain: real): (r: seq<real>)
    ensures |r| == |samples|
    ensures forall i :: 0 <= i < |r| ==> r[i] == samples[i] * gain
  {
    seq(|samples|, i requires 0 <= i < |samples| => samples[i] * gain)
  }

  function ToSpeaking(d: Detector, now: int): Detector
  {
    d.(state := Speaking, speechStart := Some(now), silenceStart := None)
  }

  function ToSilenceDetected(d: Detector, now: int): Detector
  {
    d.(state := SilenceDetected, silenceStart := Some(now))
  }

  function Reset(d: Detector): Detector
  {
    d.(state := Idle, speechStart := None, silenceStart := None)
  }

  /** One call of `process_audio`, with `speech` the classifier's verdict on the chunk. */
  function Step(d: Detector, samples: seq<real>, speech: bool, now: int): (Detector, Option<seq<real>>)
  {
    match d.state
    case Idle =>
      if speech then (ToSpeaking(d, now).(buffer := d.buffer + samples), None) else (d, None)
    case Speaking =>
      var d1 := d.(buffer := d.buffer + samples);
      if speech then (d1, None) else (ToSilenceDetected(d1, now), None)
    case SilenceDetected =>
      var d1 := d.(buffer := d.buffer + samples);
      if speech then (ToSpeaking(d1, now), None)
      else if SilenceExceeded(d1, now) then
        (Reset(d1.(buffer := [])), Some(Amplify(d1.buffer, d.gain)))
      else (d1, None)
  }

  /** The detector's invariant: a speech start is recorded exactly outside
      Idle, the buffer is empty when Idle (it may also be empty while
      Speaking, after an empty speech chunk), and a silence start is recorded
      exactly in SilenceDetected. */
  ghost predicate Inv(d: Detector)
  {
    && (d.state == Idle <==> d.speechStart == None)
    && (d.state == Idle ==> d.buffer == [])
    && (d.silenceStart.Some? <==> d.state == SilenceDetected)
  }

  lemma StepPreservesInv(d: Detector, samples: seq<real>, speech: bool, now: int)
    requires Inv(d)
    ensures Inv(Step(d, samples, speech, now).0)
  {
  }

  /** Idle: a non-speech chunk (also an empty one) changes nothing; a speech
      chunk opens a segment holding exactly that chunk. Neither emits. */
  lemma IdleStep(d: Detector, samples: seq<real>, speech: bool, now: int)
    requires d.state == Idle
    ensures var (d', r) := Step(d, samples, speech, now);
      && r == None
      && (!speech ==> d' == d)
      && (speech ==> d'.state == Speaking && d'.buffer == d.buffer + samples
                     && d'.speechStart == Some(now) && d'.silenceStart == None)
  {
  }

  /** Outside Idle every chunk is appended whatever its classification, unless
      the call closes the segment. */
  lemma BufferGrowsWhileOpen(d: Detector, samples: seq<real>, speech: bool, now: int)
    requires d.state != Idle
    ensures var (d', r) := Step(d, samples, speech, now);
      r == None ==> d'.buffer == d.buffer + samples && |d'.buffer| == |d.buffer| + |samples|
  {
  }

  /** Speaking followed by non-speech records the silence start and never emits
      in that call, even with a zero silence duration. */
  lemma SpeakingToSilence(d: Detector, samples: seq<real>, now: int)
    requires d.state == Speaking
    ensures var (d', r) := Step(d, samples, false, now);
      && r == None && d'.state == SilenceDetected && d'.silenceStart == Some(now)
      && d'.buffer == d.buffer + samples
  {
  }

  /** The false alarm: speech after a detected silence returns to Speaking,
      clears the silence start, keeps the buffer and emits nothing. */
  lemma FalseAlarm(d: Detector, samples: seq<real>, now: int)
    requires d.state == SilenceDetected
    ensures var (d', r) := Step(d, samples, true, now);
      && r == None && d'.state == Speaking && d'.silenceStart == None
      && d'.buffer == d.buffer + samples
  {
  }

  /** Confirmed silence closes the segment: the whole buffer (with this chunk)
      comes out gain-scaled and the detector is back to a fresh Idle; silence not
      yet long enough keeps buffering. */
  lemma SilenceFinalises(d: Detector, samples: seq<real>, now: int)
    requires d.state == SilenceDetected && d.silenceStart.Some?
    ensures var (d', r) := Step(d, samples, false, now);
      var full := d.buffer + samples;
      if now - d.silenceStart.value >= d.silenceDurationMs then
        && r.Some? && |r.value| == |full|
        && (forall i :: 0 <= i < |full| ==> r.value[i] == full[i] * d.gain)
        && d' == NewDetector(d.silenceDurationMs, d.gain)
      else
        r == None && d'.state == SilenceDetected && d'.buffer == full
  {
  }

  /** Only a confirmed silence emits, and whatever is emitted is a closed segment. */
  lemma EmitOnlyOnConfirmedSilence(d: Detector, samples: seq<real>, speech: bool, now: int)
    ensures var (d', r) := Step(d, samples, speech, now);
      r.Some? <==> (d.state == SilenceDetected && !speech && SilenceExceeded(d, now))
  {
  }

  /** A run of the detector over chunks, each with its verdict and arrival time. */
  datatype Chunk = Chunk(samples: seq<real>, speech: bool, now: int)

  /** Final detector and the segments emitted, in order. */
  function Run(d: Detector, chunks: seq<Chunk>): (Detector, seq<seq<real>>)
    decreases |chunks|
  {
    if chunks == [] then (d, [])
    else
      var step := Step(d, chunks[0].samples, chunks[0].speech, chunks[0].now);
      var rest := Run(step.0, chunks[1..]);
      (rest.0, Emitted(step.1) + rest.1)
  }

  function Emitted(r: Option<seq<real>>): seq<seq<real>>
  {
    if r.Some? then [r.value] else []
  }

  function Flatten(chunks: seq<Chunk>): seq<real>
  {
    if chunks == [] then [] else chunks[0].samples + Flatten(chunks[1..])
  }

  predicate AllSpeech(chunks: seq<Chunk>)
  {
    forall i :: 0 <= i < |chunks| ==> chunks[i].speech
  }

  /** While every chunk is speech, a segment already open stays Speaking and
      accumulates every chunk without emitting. */
  lemma {:induction false} SpeechAccumulates(d: Detector, chunks: seq<Chunk>)
    requires d.state == Speaking && d.silenceStart == None && AllSpeech(chunks)
    decreases |chunks|
    ensures Run(d, chunks).1 == []
    ensures var d' := Run(d, chunks).0;
      && d'.state == Speaking && d'.silenceStart == None && d'.buffer == d.buffer + Flatten(chunks)
      && d'.silenceDurationMs == d.silenceDurationMs && d'.gain == d.gain
  {
    if chunks == [] {
      assert d.buffer + [] == d.buffer;
    } else {
      var step := Step(d, chunks[0].samples, true, chunks[0].now);
      assert step.1 == None && step.0 == d.(buffer := d.buffer + chunks[0].samples);
      assert AllSpeech(chunks[1..]) by {
        forall i | 0 <= i < |chunks| - 1 ensures chunks[1..][i].speech { assert chunks[1..][i] == chunks[i + 1]; }
      }
      SpeechAccumulates(step.0, chunks[1..]);
      assert d.buffer + chunks[0].samples + Flatten(chunks[1..]) == d.buffer + Flatten(chunks);
    }
  }

  /** A run over one chunk is one step. */
  lemma RunOne(d: Detector, c: Chunk)
    ensures var step := Step(d, c.samples, c.speech, c.now);
      Run(d, [c]) == (step.0, Emitted(step.1))
  {
    assert [c][0] == c && [c][1..] == [];
    var step := Step(d, c.samples, c.speech, c.now);
    assert Run(step.0, []) == (step.0, []);
    assert Emitted(step.1) + [] == Emitted(step.1);
  }

  /** Running over a concatenation runs the second part from where the first ended. */
  lemma {:induction false} RunAppend(d: Detector, xs: seq<Chunk>, ys: seq<Chunk>)
    decreases |xs|
    ensures Run(d, xs + ys) == (Run(Run(d, xs).0, ys).0, Run(d, xs).1 + Run(Run(d, xs).0, ys).1)
  {
    if xs == [] {
      assert xs + ys == ys;
      assert [] + Run(d, ys).1 == Run(d, ys).1;
    } else {
      assert (xs + ys)[0] == xs[0] && (xs + ys)[1..] == xs[1..] + ys;
      var step := Step(d, xs[0].samples, xs[0].speech, xs[0].now);
      RunAppend(step.0, xs[1..], ys);
      var e := Emitted(step.1);
      var m := Run(step.0, xs[1..]);
      assert e + (m.1 + Run(m.0, ys).1) == (e + m.1) + Run(m.0, ys).1;
    }
  }

  /** The segmenter round trip: from Idle, loud chunks (the first non-empty)
      followed by two silent chunks, the second arriving once the silence has
      lasted long enough, emit exactly one segment: all of that audio,
      gain-scaled; the detector ends Idle and empty. */
  lemma {:induction false} OneUtterance(d: Detector, loud: seq<Chunk>, quiet1: Chunk, quiet2: Chunk)
    requires d.state == Idle && d.buffer == []
    requires |loud| > 0 && AllSpeech(loud)
    requires !quiet1.speech && !quiet2.speech
    requires quiet2.now - quiet1.now >= d.silenceDurationMs
    ensures Run(d, loud + [quiet1, quiet2]).1 == [Amplify(Flatten(loud) + quiet1.samples + quiet2.samples, d.gain)]
    ensures Run(d, loud + [quiet1, quiet2]).0 == NewDetector(d.silenceDurationMs, d.gain)
  {
    var s1 := Step(d, loud[0].samples, true, loud[0].now);
    assert s1.1 == None && s1.0.state == Speaking && s1.0.silenceStart == None;
    assert loud == [loud[0]] + loud[1..];
    RunAppend(d, [loud[0]], loud[1..]);
    RunOne(d, loud[0]);
    assert AllSpeech(loud[1..]) by {
      forall i | 0 <= i < |loud| - 1 ensures loud[1..][i].speech { assert loud[1..][i] == loud[i + 1]; }
    }
    SpeechAccumulates(s1.0, loud[1..]);
    var m := Run(s1.0, loud[1..]).0;
    assert Flatten(loud) == loud[0].samples + Flatten(loud[1..]);
    assert m.buffer == Flatten(loud);
    assert Run(d, loud) == (m, []);
    RunAppend(d, loud, [quiet1, quiet2]);
    var s2 := Step(m, quiet1.samples, false, quiet1.now);
    var s3 := Step(s2.0, quiet2.samples, false, quiet2.now);
    assert s2.1 == None && s2.0.state == SilenceDetected && s2.0.silenceStart == Some(quiet1.now);
    assert s3.1 == Some(Amplify(Flatten(loud) + quiet1.samples + quiet2.samples, d.gain));
    RunOne(m, quiet1);
    RunOne(s2.0, quiet2);
    assert [quiet1, quiet2] == [quiet1] + [quiet2];
    RunAppend(m, [quiet1], [quiet2]);
  }

  /** A pause shorter than the silence duration never splits an utterance:
      loud, quiet, loud keeps all three chunks in one open segment. */
  lemma FalseAlarmRun(d: Detector, a: Chunk, b: Chunk, c: Chunk)
    requires d.state == Idle && d.buffer == []
    requires a.speech && !b.speech && c.speech
    ensures Run(d, [a, b, c]).1 == []
    ensures var d' := Run(d, [a, b, c]).0;
      d'.state == Speaking && d'.silenceStart == None && d'.buffer == a.samples + b.samples + c.samples
  {
    var s1 := Step(d, a.samples, true, a.now);
    var s2 := Step(s1.0, b.samples, false, b.now);
    var s3 := Step(s2.0, c.samples, true, c.now);
    assert s1.1 == None && s1.0.state == Speaking;
    assert s2.1 == None && s2.0.state == SilenceDetected;
    assert s3.1 == None;
    RunOne(d, a);
    RunOne(s1.0, b);
    RunOne(s2.0, c);
    assert [a, b, c] == [a] + [b] + [c];
    RunAppend(d, [a], [b]);
    RunAppend(d, [a] + [b], [c]);
  }

  /** `calculate_duration_ms` as written: `sample_count as u32 * 1000` is 32-bit
      arithmetic, so the count is truncated and the product wraps (in a release
      build; a debug build panics instead). */
  function DurationMsAsWritten(sampleCount: nat): (ms: nat)
    ensures ms < 0x1_0000_0000 / 16000 + 1
  {
    ((sampleCount % 0x1_0000_0000) * 1000 % 0x1_0000_0000) / 16000
  }

  /** The wrap-around shows from 4294968 samples (about 268 seconds at 16 kHz):
      a long segment is reported as lasting 0 ms. */
  lemma DurationWraps()
    ensures DurationMsAsWritten(4294968) == 0
    ensures DurationMs(4294968) == 268435
  {
  }

  /** The duration of a segment at the hard-coded 16 kHz rate, in whole
      milliseconds, without the 32-bit wrap-around. */
  function DurationMs(sampleCount: nat): (ms: nat)
    ensures ms * 16000 <= sampleCount * 1000 < (ms + 1) * 16000
  {
    sampleCount * 1000 / 16000
  }

  /** The two agree for every count whose product fits in 32 bits: 1600 samples are 100 ms. */
  lemma DurationAgreesBelowWrap(sampleCount: nat)
    requires sampleCount * 1000 < 0x1_0000_0000
    ensures DurationMsAsWritten(sampleCount) == DurationMs(sampleCount)
    ensures DurationMs(1600) == 100
  {
  }

  /** The segmenter object: fields updated in place by `ProcessAudio`. */
  class SpeechDetector {
    var state: SpeechState
    var speechStart: Option<int>
    var silenceStart: Option<int>
    var buffer: seq<real>
    const silenceDurationMs: nat
    const gain: real

    function View(): Detector
      reads this
    {
      Detector(state, speechStart, silenceStart, buffer, silenceDurationMs, gain)
    }

    constructor (silenceDurationMs: nat, gain: real)
      ensures View() == NewDetector(silenceDurationMs, gain)
    {
      state := Idle;
      speechStart := None;
      silenceStart := None;
      buffer := [];
      this.silenceDurationMs := silenceDurationMs;
      this.gain := gain;
    }

    /** `process_audio`: classifies the chunk (passing whether the detector is
        Speaking), then advances the machine. */
    method ProcessAudio(samples: seq<real>, classify: (seq<real>, bool) -> bool, now: int)
      returns (r: Option<seq<real>>)
      modifies this
      ensures (View(), r) == Step(old(View()), samples, classify(samples, WasSpeaking(old(state))), now)
    {
      var isSpeaking := state == Speaking;
      var speech := classify(samples, isSpeaking);
      r := None;
      match state {
        case Idle =>
          if speech {
            TransitionToSpeaking(now);
            buffer := buffer + samples;
          }
        case Speaking =>
          buffer := buffer + samples;
          if !speech {
            TransitionToSilenceDetected(now);
          }
        case SilenceDetected =>
          buffer := buffer + samples;
          if speech {
            TransitionToSpeaking(now);
          } else {
            var exceeded := SilenceDurationExceeded(now);
            if exceeded {
              var speechAudio := buffer;
              buffer := [];
              ResetState();
              r := Some(Amplify(speechAudio, gain));
            }
          }
      }
    }

    method TransitionToSpeaking(now: int)
      modifies this
      ensures View() == ToSpeaking(old(View()), now)
    {
      state := Speaking;
      speechStart := Some(now);
      silenceStart := None;
    }

    method TransitionToSilenceDetected(now: int)
      modifies this
      ensures View() == ToSilenceDetected(old(View()), now)
    {
      state := SilenceDetected;
      silenceStart := Some(now);
    }

    method SilenceDurationExceeded(now: int) returns (b: bool)
      ensures b == SilenceExceeded(View(), now)
    {
      b := match silenceStart
        case None => false
        case Some(t) => now - t >= silenceDurationMs;
    }

    method ResetState()
      modifies this
      ensures View() == Reset(old(View()))
    {
      state := Idle;
      speechStart := None;
      silenceStart := None;
    }
  }
}

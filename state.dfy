/** `DaemonState` of `daemon/src/state.rs`: the flags and slots the daemon's
    commands manipulate, and the two audio-processing tasks.

    Every slot is behind its own mutex in the source; the server holds the
    outer lock for a whole command, so each operation here is atomic. Slots
    whose contents are hardware or foreign objects (the audio capture, the
    broadcast receiver, the batch engine, the virtual keyboard and the task
    handles) are modelled by whether they hold something. The streaming engine
    slot holds the engine's value. A spawned task's first action, raising
    `is_processing` (lines 87 and 229), is taken to happen at the spawn.

    The configuration is a parameter. `language` is the language slot that
    `handle_set_language` writes (`daemon/src/server.rs:239`); `DaemonState`
    in the source declares no such field. The command rate limiter is held
    here as a value; the source fetches it with `get_rate_limiter`, which
    `DaemonState` does not define. */
module State {
  import opened Common
  import Ipc
  import RateLimit
  import StreamingEngine
  import SpeechSegmenter
  import PostProcess

  /** The configuration values the core reads. */
  datatype Config = Config(
    streamingMode: bool,
    language: string,
    stepMs: nat,
    lengthMs: nat,
    keepMs: nat,
    sampleRate: nat,
    silenceDurationMs: nat,
    gain: real,
    commandsPerSecond: nat,
    burstCapacity: nat,
    rateLimitEnabled: bool)

  /** The slots holding the daemon's resources: the audio capture, the
      receiving end of its channel, the batch engine, the streaming engine
      and the virtual keyboard. */
  datatype Slots = Slots(
    hasCapture: bool,
    hasReceiver: bool,
    hasBatchEngine: bool,
    streamingEngine: Option<StreamingEngine.Engine>,
    hasKeyboard: bool)

  /** The slots holding the handles of the two processing tasks. */
  datatype Tasks = Tasks(vadTask: bool, streamingTask: bool)

  const NoSlots: Slots := Slots(false, false, false, None, false)
  const NoTasks: Tasks := Tasks(false, false)

  /** The daemon's fields, as a value. */
  datatype Daemon = Daemon(
    config: Config,
    isActive: bool,
    isProcessing: bool,
    slots: Slots,
    tasks: Tasks,
    language: string,
    limiter: RateLimit.Limiter)

  /** A configuration the rate limiter accepts: `governor` panics on a zero
      rate or burst (`daemon/src/rate_limit.rs:26-28`). */
  predicate Admissible(config: Config)
  {
    config.commandsPerSecond > 0 && config.burstCapacity > 0
  }

  /** `DaemonState::new`: inactive, not processing, every slot empty. */
  function NewDaemon(config: Config): (d: Daemon)
    requires Admissible(config)
    ensures d.config == config && !d.isActive && !d.isProcessing
    ensures d.slots == NoSlots && d.tasks == NoTasks
    ensures d.language == config.language
    ensures RateLimit.Valid(d.limiter) && d.limiter.spent == 0 && d.limiter.enabled == config.rateLimitEnabled
  {
    Daemon(config, false, false, NoSlots, NoTasks, config.language,
           RateLimit.NewLimiter(config.commandsPerSecond, config.burstCapacity, config.rateLimitEnabled))
  }

  /** `activate`. */
  function ActivateStep(d: Daemon): Daemon
  {
    d.(isActive := true)
  }

  /** `deactivate`. */
  function DeactivateStep(d: Daemon): Daemon
  {
    d.(isActive := false)
  }

  /** `get_status`: the language reported is the configured one
      (line 60), not the language slot. */
  function StatusOf(d: Daemon): Ipc.StatusInfo
  {
    Ipc.StatusInfo(true, d.isActive, d.config.language)
  }

  /** The two refusals of starting a task. */
  const AlreadyProcessing: string := "Already processing audio"
  const NoReceiver: string := "Audio receiver not available"

  /** `start_vad_processing` (`streaming` false) and
      `start_streaming_processing` (`streaming` true): refuse while
      processing; otherwise take the receiver out of its slot, refuse if there
      was none, and spawn the task, recording its handle. */
  function StartProcessingStep(d: Daemon, streaming: bool): (Daemon, Outcome)
  {
    if d.isProcessing then (d, Fail(AlreadyProcessing))
    else
      var taken := d.(slots := d.slots.(hasReceiver := false));
      if !d.slots.hasReceiver then (taken, Fail(NoReceiver))
      else if streaming then (taken.(isProcessing := true, tasks := d.tasks.(streamingTask := true)), Pass)
      else (taken.(isProcessing := true, tasks := d.tasks.(vadTask := true)), Pass)
  }

  /** `stop_vad_processing`: lower the flag, drop the streaming engine and
      abort both tasks. */
  function StopProcessingStep(d: Daemon): Daemon
  {
    d.(isProcessing := false, slots := d.slots.(streamingEngine := None), tasks := NoTasks)
  }

  // ---------------------------------------------------------------------------
  // The processing tasks

  /** What the broadcast receiver yields: a chunk (with the time it arrives,
      in milliseconds), a report of chunks dropped, or the end of the channel. */
  datatype Event = Received(samples: seq<real>, now: int) | Lagged(skipped: nat) | Closed

  /** The voice-activity verdict on a chunk, given whether the detector is
      speaking. */
  type Classifier = (seq<real>, bool) -> bool

  /** The batch engine's `transcribe`, an oracle. */
  type Transcriber = seq<real> -> Result<string>

  /** The texts handed to the keyboard, in order, and whether the channel
      closed. */
  datatype TaskRun = TaskRun(typed: seq<string>, closed: bool)

  function Prepend(typed: seq<string>, r: TaskRun): TaskRun
  {
    r.(typed := typed + r.typed)
  }

  /** What one segment from the detector leads to: without an engine, or
      when transcription fails, nothing (the error is only logged); otherwise
      the post-processed text is typed if a keyboard is present. */
  function SegmentTyped(engine: bool, keyboard: bool, transcribe: Transcriber, segment: seq<real>): seq<string>
  {
    if !engine then []
    else
      match transcribe(segment)
      case Err(_) => []
      case Ok(text) => if keyboard then [PostProcess.PostProcess(text)] else []
  }

  /** The loop of the batch task (lines 99-201), from the detector `det`. */
  function VadRun(det: SpeechSegmenter.Detector, events: seq<Event>, classify: Classifier,
                  engine: bool, keyboard: bool, transcribe: Transcriber): TaskRun
    decreases |events|
  {
    if events == [] then TaskRun([], false)
    else
      match events[0]
      case Closed => TaskRun([], true)
      case Lagged(_) => VadRun(det, events[1..], classify, engine, keyboard, transcribe)
      case Received(s, now) =>
        var step := SpeechSegmenter.Step(det, s, classify(s, SpeechSegmenter.WasSpeaking(det.state)), now);
        var out := if step.1.Some? then SegmentTyped(engine, keyboard, transcribe, step.1.value) else [];
        Prepend(out, VadRun(step.0, events[1..], classify, engine, keyboard, transcribe))
  }

  /** A streaming engine slot whose window sizes let `send_audio` trim. */
  predicate Sized(e: Option<StreamingEngine.Engine>)
  {
    e.Some? ==> e.value.keepSamples <= e.value.lengthSamples
  }

  /** One chunk in the streaming task (lines 235-262): it goes to the engine
      in the slot, if any; a new text is post-processed and typed if a
      keyboard is present; an engine error is only logged. */
  function StreamChunk(engine: Option<StreamingEngine.Engine>, s: seq<real>, keyboard: bool,
                       recognize: Recognizer): (r: (Option<StreamingEngine.Engine>, seq<string>))
    requires Sized(engine)
    ensures Sized(r.0) && (r.0.Some? <==> engine.Some?)
    ensures engine.None? ==> r == (engine, [])
  {
    if engine.None? then (engine, [])
    else
      var step := StreamingEngine.SendStep(engine.value, s, recognize);
      (Some(step.0), if step.1.Ok? && step.1.value.Some? && keyboard
                     then [PostProcess.PostProcess(step.1.value.value)] else [])
  }

  /** The loop of the streaming task (lines 233-272). The result is the final
      slot contents and the run. */
  function StreamRun(engine: Option<StreamingEngine.Engine>, events: seq<Event>, keyboard: bool,
                     recognize: Recognizer): (r: (Option<StreamingEngine.Engine>, TaskRun))
    requires Sized(engine)
    ensures Sized(r.0) && (r.0.Some? <==> engine.Some?)
    decreases |events|
  {
    if events == [] then (engine, TaskRun([], false))
    else
      match events[0]
      case Closed => (engine, TaskRun([], true))
      case Lagged(_) => StreamRun(engine, events[1..], keyboard, recognize)
      case Received(s, _) =>
        var step := StreamChunk(engine, s, keyboard, recognize);
        var rest := StreamRun(step.0, events[1..], keyboard, recognize);
        (rest.0, Prepend(step.1, rest.1))
  }

  lemma PrependEmpty(r: TaskRun)
    ensures Prepend([], r) == r
  {
    assert [] + r.typed == r.typed;
  }

  lemma PrependTwice(a: seq<string>, b: seq<string>, r: TaskRun)
    ensures Prepend(a, Prepend(b, r)) == Prepend(a + b, r)
  {
    assert a + (b + r.typed) == (a + b) + r.typed;
  }

  // ---------------------------------------------------------------------------
  // Properties

  /** `activate` and `deactivate` flip the flag, touch nothing else, and are
      what `get_status` reports. */
  lemma ActivationOnlyFlag(d: Daemon)
    ensures ActivateStep(d).(isActive := d.isActive) == d && DeactivateStep(d).(isActive := d.isActive) == d
    ensures StatusOf(ActivateStep(d)).isActive && !StatusOf(DeactivateStep(d)).isActive
    ensures DeactivateStep(ActivateStep(d)) == DeactivateStep(d)
  {
  }

  /** `get_status` always reports a running daemon, the activation flag and
      the configured language, whatever the language slot holds. */
  lemma StatusReadsConfig(d: Daemon, language: string)
    ensures StatusOf(d).isRunning && StatusOf(d).isActive == d.isActive
    ensures StatusOf(d.(language := language)) == StatusOf(d)
    ensures StatusOf(d).language == d.config.language
  {
  }

  /** Starting a task: while processing nothing changes; otherwise the
      receiver slot is empty afterwards whatever happens; without a receiver
      the start fails; with one the task is spawned and its handle recorded.
      No other slot changes. */
  lemma StartProcessingEffect(d: Daemon, streaming: bool)
    ensures var (n, r) := StartProcessingStep(d, streaming);
      (d.isProcessing ==> n == d && r == Fail(AlreadyProcessing)) &&
      (!d.isProcessing ==> !n.slots.hasReceiver) &&
      (!d.isProcessing && !d.slots.hasReceiver ==> n == d && r == Fail(NoReceiver)) &&
      (r.Pass? <==> !d.isProcessing && d.slots.hasReceiver) &&
      (r.Pass? ==> n.isProcessing && (if streaming then n.tasks.streamingTask else n.tasks.vadTask)) &&
      n.(isProcessing := d.isProcessing, slots := n.slots.(hasReceiver := d.slots.hasReceiver), tasks := d.tasks) == d
  {
  }

  /** A second start right after a successful one fails, and so does one
      after the task has been stopped, because the receiver was consumed. */
  lemma SecondStartFails(d: Daemon, streaming: bool, again: bool)
    requires StartProcessingStep(d, streaming).1.Pass?
    ensures var n := StartProcessingStep(d, streaming).0;
      StartProcessingStep(n, again).1 == Fail(AlreadyProcessing) &&
      StartProcessingStep(StopProcessingStep(n), again).1 == Fail(NoReceiver)
  {
  }

  /** `stop_vad_processing` works whatever is running, leaves nothing
      processing, no streaming engine and no task, touches no other slot,
      and a second call changes nothing. */
  lemma StopProcessingEffect(d: Daemon)
    ensures var n := StopProcessingStep(d);
      !n.isProcessing && n.slots.streamingEngine == None && n.tasks == NoTasks &&
      n.(isProcessing := d.isProcessing, slots := n.slots.(streamingEngine := d.slots.streamingEngine),
         tasks := d.tasks) == d &&
      StopProcessingStep(n) == n
  {
  }

  /** A dropped-chunks report is skipped: the loop goes on. */
  lemma LaggedSkipped(det: SpeechSegmenter.Detector, n: nat, events: seq<Event>, classify: Classifier,
                      engine: bool, keyboard: bool, transcribe: Transcriber,
                      e: Option<StreamingEngine.Engine>, recognize: Recognizer)
    requires Sized(e)
    ensures VadRun(det, [Lagged(n)] + events, classify, engine, keyboard, transcribe) ==
            VadRun(det, events, classify, engine, keyboard, transcribe)
    ensures StreamRun(e, [Lagged(n)] + events, keyboard, recognize) == StreamRun(e, events, keyboard, recognize)
  {
    assert ([Lagged(n)] + events)[1..] == events;
  }

  /** The end of the channel ends the loop: nothing after it is processed. */
  lemma ClosedEnds(det: SpeechSegmenter.Detector, events: seq<Event>, classify: Classifier,
                   engine: bool, keyboard: bool, transcribe: Transcriber,
                   e: Option<StreamingEngine.Engine>, recognize: Recognizer)
    requires Sized(e)
    ensures VadRun(det, [Closed] + events, classify, engine, keyboard, transcribe) == TaskRun([], true)
    ensures StreamRun(e, [Closed] + events, keyboard, recognize) == (e, TaskRun([], true))
  {
  }

  /** A run over two stretches of events is the run over the first followed,
      unless the channel closed, by the run over the second. */
  lemma {:induction false} VadRunAppend(det: SpeechSegmenter.Detector, xs: seq<Event>, ys: seq<Event>,
                                        classify: Classifier, engine: bool, keyboard: bool,
                                        transcribe: Transcriber)
    ensures var whole := VadRun(det, xs + ys, classify, engine, keyboard, transcribe);
      var first := VadRun(det, xs, classify, engine, keyboard, transcribe);
      first.closed ==> whole == first
    decreases |xs|
  {
    if xs != [] {
      assert (xs + ys)[0] == xs[0];
      assert (xs + ys)[1..] == xs[1..] + ys;
      match xs[0]
      case Closed =>
      case Lagged(_) =>
        VadRunAppend(det, xs[1..], ys, classify, engine, keyboard, transcribe);
      case Received(s, now) =>
        var step := SpeechSegmenter.Step(det, s, classify(s, SpeechSegmenter.WasSpeaking(det.state)), now);
        VadRunAppend(step.0, xs[1..], ys, classify, engine, keyboard, transcribe);
    }
  }

  /** Without a batch engine, or with a transcriber that always fails, the
      batch task types nothing, however much speech it hears. */
  lemma {:induction false} FailuresTypeNothing(det: SpeechSegmenter.Detector, events: seq<Event>,
                                               classify: Classifier, engine: bool, keyboard: bool,
                                               transcribe: Transcriber)
    requires !engine || !keyboard || forall s :: transcribe(s).Err?
    ensures VadRun(det, events, classify, engine, keyboard, transcribe).typed == []
    decreases |events|
  {
    if events != [] {
      match events[0]
      case Closed =>
      case Lagged(_) =>
        FailuresTypeNothing(det, events[1..], classify, engine, keyboard, transcribe);
      case Received(s, now) =>
        var step := SpeechSegmenter.Step(det, s, classify(s, SpeechSegmenter.WasSpeaking(det.state)), now);
        FailuresTypeNothing(step.0, events[1..], classify, engine, keyboard, transcribe);
    }
  }

  // ---------------------------------------------------------------------------
  // The object the server holds

  class DaemonState {
    const config: Config
    var isActive: bool
    var isProcessing: bool
    var hasCapture: bool
    var hasReceiver: bool
    var hasBatchEngine: bool
    var streamingEngine: Option<StreamingEngine.Engine>
    var hasKeyboard: bool
    var vadTask: bool
    var streamingTask: bool
    var language: string
    var limiter: RateLimit.Limiter

    function View(): Daemon
      reads this
    {
      Daemon(config, isActive, isProcessing,
             Slots(hasCapture, hasReceiver, hasBatchEngine, streamingEngine, hasKeyboard),
             Tasks(vadTask, streamingTask), language, limiter)
    }

    /** `DaemonState::new`. */
    constructor (config: Config)
      requires Admissible(config)
      ensures View() == NewDaemon(config)
    {
      this.config := config;
      isActive := false;
      isProcessing := false;
      hasCapture := false;
      hasReceiver := false;
      hasBatchEngine := false;
      streamingEngine := None;
      hasKeyboard := false;
      vadTask := false;
      streamingTask := false;
      language := config.language;
      limiter := RateLimit.NewLimiter(config.commandsPerSecond, config.burstCapacity, config.rateLimitEnabled);
    }

    /** `activate`, which always succeeds. */
    method Activate() returns (r: Outcome)
      modifies this
      ensures View() == ActivateStep(old(View())) && r == Pass
    {
      isActive := true;
      r := Pass;
    }

    /** `deactivate`, which always succeeds. */
    method Deactivate() returns (r: Outcome)
      modifies this
      ensures View() == DeactivateStep(old(View())) && r == Pass
    {
      isActive := false;
      r := Pass;
    }

    /** `get_status`. */
    function GetStatus(): (s: Ipc.StatusInfo)
      reads this
      ensures s == StatusOf(View())
    {
      Ipc.StatusInfo(true, isActive, config.language)
    }

    /** `start_vad_processing`. */
    method StartVadProcessing() returns (r: Outcome)
      modifies this
      ensures (View(), r) == StartProcessingStep(old(View()), false)
    {
      if isProcessing {
        return Fail(AlreadyProcessing);
      }
      var received := hasReceiver;
      hasReceiver := false;
      if !received {
        return Fail(NoReceiver);
      }
      isProcessing := true;
      vadTask := true;
      r := Pass;
    }

    /** `start_streaming_processing`. */
    method StartStreamingProcessing() returns (r: Outcome)
      modifies this
      ensures (View(), r) == StartProcessingStep(old(View()), true)
    {
      if isProcessing {
        return Fail(AlreadyProcessing);
      }
      var received := hasReceiver;
      hasReceiver := false;
      if !received {
        return Fail(NoReceiver);
      }
      isProcessing := true;
      streamingTask := true;
      r := Pass;
    }

    /** `stop_vad_processing`. */
    method StopVadProcessing()
      modifies this
      ensures View() == StopProcessingStep(old(View()))
    {
      isProcessing := false;
      streamingEngine := None;
      vadTask := false;
      streamingTask := false;
    }

    /** The body of the batch task: a fresh detector classifies each chunk;
        every segment it emits is transcribed by the engine in the slot,
        post-processed and typed. The loop ends when the channel closes, and
        only then is `is_processing` lowered. The result is what was typed. */
    method RunVadTask(events: seq<Event>, classify: Classifier, transcribe: Transcriber)
      returns (typed: seq<string>)
      modifies this
      ensures var r := VadRun(SpeechSegmenter.NewDetector(config.silenceDurationMs, config.gain), events,
                              classify, hasBatchEngine, hasKeyboard, transcribe);
        typed == r.typed && View() == old(View()).(isProcessing := !r.closed && old(isProcessing))
    {
      var detector := new SpeechSegmenter.SpeechDetector(config.silenceDurationMs, config.gain);
      ghost var d0 := detector.View();
      ghost var whole := VadRun(d0, events, classify, hasBatchEngine, hasKeyboard, transcribe);
      typed := [];
      var i := 0;
      var closed := false;
      assert events[0..] == events;
      PrependEmpty(whole);
      while i < |events| && !closed
        invariant 0 <= i <= |events|
        invariant !closed ==> Prepend(typed, VadRun(detector.View(), events[i..], classify, hasBatchEngine, hasKeyboard, transcribe)) == whole
        invariant closed ==> TaskRun(typed, true) == whole
        modifies detector
      {
        ghost var before := typed;
        assert events[i..][0] == events[i] && events[i..][1..] == events[i + 1..];
        match events[i] {
          case Closed =>
            closed := true;
            assert typed + [] == typed;
          case Lagged(_) =>
          case Received(s, now) =>
            var segment := detector.ProcessAudio(s, classify, now);
            var out := [];
            if segment.Some? {
              out := TypeSegment(segment.value, transcribe);
            }
            typed := typed + out;
            PrependTwice(before, out, VadRun(detector.View(), events[i + 1..], classify, hasBatchEngine, hasKeyboard, transcribe));
        }
        i := i + 1;
      }
      if closed {
        isProcessing := false;
      }
    }

    /** The spawned job for one segment (lines 117-190): transcribe it with
        the engine in the slot, post-process the text and type it. Failures
        and timeouts are only logged. */
    method TypeSegment(segment: seq<real>, transcribe: Transcriber) returns (typed: seq<string>)
      ensures typed == SegmentTyped(hasBatchEngine, hasKeyboard, transcribe, segment)
    {
      typed := [];
      if !hasBatchEngine {
        return;
      }
      var text := transcribe(segment);
      if text.Ok? && hasKeyboard {
        var clean := PostProcess.PostProcessTranscription(text.value);
        typed := [clean];
      }
    }

    /** One chunk handed to the engine in the slot (lines 238-262). */
    method SendToEngine(engine: Option<StreamingEngine.Engine>, s: seq<real>, recognize: Recognizer)
      returns (next: Option<StreamingEngine.Engine>, typed: seq<string>)
      requires Sized(engine)
      ensures (next, typed) == StreamChunk(engine, s, hasKeyboard, recognize)
    {
      next, typed := engine, [];
      if engine.Some? {
        var step := StreamingEngine.SendStep(engine.value, s, recognize);
        next := Some(step.0);
        if step.1.Ok? && step.1.value.Some? && hasKeyboard {
          var clean := PostProcess.PostProcessTranscription(step.1.value.value);
          typed := [clean];
        }
      }
    }

    /** The loop of the streaming task, from the engine `engine`: the engine
        it ends with and the run. */
    method StreamLoop(engine: Option<StreamingEngine.Engine>, events: seq<Event>, recognize: Recognizer)
      returns (last: Option<StreamingEngine.Engine>, run: TaskRun)
      requires Sized(engine)
      ensures (last, run) == StreamRun(engine, events, hasKeyboard, recognize)
    {
      ghost var whole := StreamRun(engine, events, hasKeyboard, recognize);
      last := engine;
      var typed := [];
      var i := 0;
      var closed := false;
      assert events[0..] == events;
      PrependEmpty(whole.1);
      while i < |events| && !closed
        invariant 0 <= i <= |events|
        invariant Sized(last)
        invariant !closed ==>
          var rest := StreamRun(last, events[i..], hasKeyboard, recognize);
          (rest.0, Prepend(typed, rest.1)) == whole
        invariant closed ==> (last, TaskRun(typed, true)) == whole
      {
        ghost var before := typed;
        assert events[i..][0] == events[i] && events[i..][1..] == events[i + 1..];
        match events[i] {
          case Closed =>
            closed := true;
            assert typed + [] == typed;
          case Lagged(_) =>
          case Received(s, _) =>
            var next, out := SendToEngine(last, s, recognize);
            typed := typed + out;
            last := next;
            PrependTwice(before, out, StreamRun(last, events[i + 1..], hasKeyboard, recognize).1);
        }
        i := i + 1;
      }
      if !closed {
        assert events[i..] == [] && typed + [] == typed;
      }
      run := TaskRun(typed, closed);
    }

    /** The body of the streaming task: each chunk goes to the engine in the
        slot, new texts are post-processed and typed, and the loop ends when
        the channel closes, lowering `is_processing`. The engine in the slot
        is the one updated. */
    method RunStreamingTask(events: seq<Event>, recognize: Recognizer) returns (typed: seq<string>)
      requires Sized(streamingEngine)
      modifies this
      ensures var (e, r) := StreamRun(old(streamingEngine), events, hasKeyboard, recognize);
        typed == r.typed &&
        View() == old(View()).(slots := old(View()).slots.(streamingEngine := e),
                               isProcessing := !r.closed && old(isProcessing))
    {
      var last, run := StreamLoop(streamingEngine, events, recognize);
      typed := run.typed;
      streamingEngine := last;
      if run.closed {
        isProcessing := false;
      }
    }
  }
}

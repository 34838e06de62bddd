/** The command handlers of `DaemonServer` in `daemon/src/server.rs`: every
    command that reaches the daemon first passes the rate limiter, then runs
    one handler against the daemon's state under the state lock.

    A handler failure is an `Err` of `execute_command`; the connection then
    closes without a reply. Only the rate limiter answers with
    `Response::Error`.

    The steps of `handle_start` that reach outside the daemon (locating the
    model file, creating the batch engine, loading a model, creating the
    virtual keyboard, opening and starting the audio device) are modelled by
    their outcomes, collected in an `Environment`. */
module Server {
  import opened Common
  import Ipc
  import RateLimit
  import StreamingEngine
  import opened State

  /** The outcomes of the external steps of `handle_start`. */
  datatype Environment = Environment(
    locateModel: Outcome,
    createEngine: Outcome,
    loadModel: Outcome,
    createKeyboard: Outcome,
    openCapture: Outcome,
    startCapture: Outcome)

  const RateLimitMessage: string := "Rate limit exceeded. Please wait before sending more commands."
  const NotActive: string := "Already paused or not started"
  const AlreadyActive: string := "Already active, cannot resume"
  const NoCapture: string := "Cannot resume: audio capture not running. Use Start instead."

  // ---------------------------------------------------------------------------
  // Language codes

  /** The number of bytes of a character in UTF-8. */
  function Utf8Width(c: char): (n: nat)
    ensures 1 <= n <= 4 && (n == 1 <==> c as int < 0x80)
  {
    if c as int < 0x80 then 1
    else if c as int < 0x800 then 2
    else if c as int < 0x10000 then 3
    else 4
  }

  /** `str::len`: the length of a text in UTF-8 bytes. */
  function Utf8Len(s: string): nat
  {
    if s == [] then 0 else Utf8Width(s[0]) + Utf8Len(s[1..])
  }

  /** `char::is_ascii_lowercase`. */
  predicate LowerAscii(c: char)
  {
    'a' <= c <= 'z'
  }

  /** The refusal of a code of the wrong length. */
  function LengthMessage(lang: string): string
  {
    "Invalid language code: '" + lang + "'. Expected 2-3 letter ISO 639-1 code (e.g., 'en', 'es', 'fr')"
  }

  /** The refusal of a code with a character other than a lowercase letter. */
  function LettersMessage(lang: string): string
  {
    "Invalid language code: '" + lang + "'. Must be lowercase ASCII letters only"
  }

  /** The validation of `handle_set_language`: the byte length first, then the
      characters. */
  function LanguageCheck(lang: string): Outcome
  {
    if Utf8Len(lang) < 2 || Utf8Len(lang) > 3 then Fail(LengthMessage(lang))
    else if !(forall i | 0 <= i < |lang| :: LowerAscii(lang[i])) then Fail(LettersMessage(lang))
    else Pass
  }

  // ---------------------------------------------------------------------------
  // The handlers, as functions of the daemon's state

  /** The engine part of `handle_start`: in streaming mode an empty slot
      gets a new streaming engine with the configured language and window,
      loaded; in batch mode an empty slot gets a loaded batch engine. A full
      slot is kept as it is. */
  function EngineStage(d: Daemon, env: Environment): (Daemon, Outcome)
  {
    if d.config.streamingMode then
      if d.slots.streamingEngine.Some? then (d, Pass)
      else if env.locateModel.Fail? then (d, env.locateModel)
      else
        var c := d.config;
        var load := StreamingEngine.LoadStep(
          StreamingEngine.NewEngine(c.language, c.stepMs, c.lengthMs, c.keepMs, c.sampleRate), env.loadModel);
        if load.1.Fail? then (d, load.1) else (d.(slots := d.slots.(streamingEngine := Some(load.0))), Pass)
    else if d.slots.hasBatchEngine then (d, Pass)
    else if env.createEngine.Fail? then (d, env.createEngine)
    else if env.loadModel.Fail? then (d, env.loadModel)
    else (d.(slots := d.slots.(hasBatchEngine := true)), Pass)
  }

  /** The keyboard part of `handle_start`: created only when the slot is
      empty. */
  function KeyboardStage(d: Daemon, env: Environment): (Daemon, Outcome)
  {
    if d.slots.hasKeyboard then (d, Pass)
    else if env.createKeyboard.Fail? then (d, env.createKeyboard)
    else (d.(slots := d.slots.(hasKeyboard := true)), Pass)
  }

  /** The capture part of `handle_start`: a new capture is opened and started
      on a new channel, and it and the channel's receiver fill their slots. */
  function CaptureStage(d: Daemon, env: Environment): (Daemon, Outcome)
  {
    if env.openCapture.Fail? then (d, env.openCapture)
    else if env.startCapture.Fail? then (d, env.startCapture)
    else (d.(slots := d.slots.(hasCapture := true, hasReceiver := true)), Pass)
  }

  /** The last part of `handle_start`: in streaming mode the engine in the
      slot, if any, is started, then the streaming task; in batch mode the
      batch task. */
  function ProcessingStage(d: Daemon): (Daemon, Outcome)
  {
    if !d.config.streamingMode then StartProcessingStep(d, false)
    else if d.slots.streamingEngine.None? then StartProcessingStep(d, true)
    else
      var started := StreamingEngine.StartStep(d.slots.streamingEngine.value);
      var next := d.(slots := d.slots.(streamingEngine := Some(started.0)));
      if started.1.Fail? then (next, started.1) else StartProcessingStep(next, true)
  }

  /** `handle_start`: activate, refuse while processing, then the four
      stages in order; the first failure ends the handler and what was done
      before it stays done. */
  function StartCommand(d: Daemon, env: Environment): (Daemon, Outcome)
  {
    var a := ActivateStep(d);
    if a.isProcessing then (a, Fail(AlreadyProcessing))
    else
      var b := EngineStage(a, env);
      if b.1.Fail? then b
      else
        var c := KeyboardStage(b.0, env);
        if c.1.Fail? then c
        else
          var e := CaptureStage(c.0, env);
          if e.1.Fail? then e
          else ProcessingStage(e.0)
  }

  /** `handle_stop`: stop processing, drop the capture and the receiver, and
      deactivate. Stopping the capture cannot fail. */
  function StopCommand(d: Daemon): (Daemon, Outcome)
  {
    var stopped := StopProcessingStep(d);
    (DeactivateStep(stopped.(slots := stopped.slots.(hasCapture := false, hasReceiver := false))), Pass)
  }

  /** `handle_pause`. */
  function PauseCommand(d: Daemon): (Daemon, Outcome)
  {
    if !d.isActive then (d, Fail(NotActive))
    else (DeactivateStep(StopProcessingStep(d)), Pass)
  }

  /** `handle_resume`. */
  function ResumeCommand(d: Daemon): (Daemon, Outcome)
  {
    if d.isActive then (d, Fail(AlreadyActive))
    else if !d.slots.hasCapture then (d, Fail(NoCapture))
    else
      var p := StartProcessingStep(d, d.config.streamingMode);
      if p.1.Fail? then p else (ActivateStep(p.0), Pass)
  }

  /** `handle_set_language`. */
  function SetLanguageCommand(d: Daemon, lang: string): (Daemon, Outcome)
  {
    var check := LanguageCheck(lang);
    if check.Fail? then (d, check)
    else
      var engine := if d.slots.streamingEngine.Some? then Some(StreamingEngine.LanguageStep(d.slots.streamingEngine.value, lang))
                    else None;
      (d.(language := lang, slots := d.slots.(streamingEngine := engine)), Pass)
  }

  /** A handler's outcome as the result of `execute_command`. */
  function Answer(step: (Daemon, Outcome)): (Daemon, Result<Ipc.Response>)
  {
    (step.0, if step.1.Pass? then Ok(Ipc.Response.Ok) else Err(step.1.msg))
  }

  /** The dispatch of `execute_command` once the command is admitted. */
  function Dispatch(d: Daemon, cmd: Ipc.Command, env: Environment): (Daemon, Result<Ipc.Response>)
  {
    match cmd
    case Start => Answer(StartCommand(d, env))
    case Stop => Answer(StopCommand(d))
    case Pause => Answer(PauseCommand(d))
    case Resume => Answer(ResumeCommand(d))
    case Status => (d, Ok(Ipc.Response.Status(StatusOf(d))))
    case SetLanguage(lang) => Answer(SetLanguageCommand(d, lang))
    case Toggle => if StatusOf(d).isActive then Answer(StopCommand(d)) else Answer(StartCommand(d, env))
  }

  /** `execute_command`: a refused command is answered with the rate-limit
      error and changes nothing; an admitted one spends its cell and is
      dispatched. */
  function Execute(d: Daemon, cmd: Ipc.Command, env: Environment): (Daemon, Result<Ipc.Response>)
  {
    var admit := RateLimit.Admit(d.limiter);
    if !admit.1 then (d, Ok(Ipc.Response.Error(RateLimitMessage)))
    else Dispatch(d.(limiter := admit.0), cmd, env)
  }

  /** `n` `Status` commands in a row: the answers. */
  function StatusAnswers(d: Daemon, n: nat, env: Environment): seq<Result<Ipc.Response>>
    decreases n
  {
    if n == 0 then []
    else
      var first := Execute(d, Ipc.Command.Status, env);
      [first.1] + StatusAnswers(first.0, n - 1, env)
  }

  /** A streaming engine in the slot has its model loaded: the only way one
      gets there is `EngineStage`. */
  predicate EngineLoaded(d: Daemon)
  {
    d.slots.streamingEngine.Some? ==> d.slots.streamingEngine.value.loaded
  }

  /** Everything outside the daemon works. */
  predicate Working(env: Environment)
  {
    env == Environment(Pass, Pass, Pass, Pass, Pass, Pass)
  }

  // ---------------------------------------------------------------------------
  // Properties of the language check

  lemma {:induction false} Utf8LenAtLeast(s: string)
    ensures Utf8Len(s) >= |s|
    ensures Utf8Len(s) == |s| <==> forall i :: 0 <= i < |s| ==> s[i] as int < 0x80
    decreases |s|
  {
    if s != [] {
      Utf8LenAtLeast(s[1..]);
      if forall i :: 0 <= i < |s| ==> s[i] as int < 0x80 {
        assert forall i :: 0 <= i < |s[1..]| ==> s[1..][i] == s[i + 1];
      } else if Utf8Len(s) == |s| {
        assert s[0] as int < 0x80;
        forall i | 0 <= i < |s| ensures s[i] as int < 0x80 {
          if i > 0 { assert s[i] == s[1..][i - 1]; }
        }
      }
    }
  }

  /** A code passes exactly when it is two or three lowercase ASCII letters. */
  lemma LanguageCheckIff(lang: string)
    ensures LanguageCheck(lang) == Pass <==> 2 <= |lang| <= 3 && forall i :: 0 <= i < |lang| ==> LowerAscii(lang[i])
  {
    Utf8LenAtLeast(lang);
  }

  /** Two lowercase letters pass. */
  lemma TwoLetters(a: char, b: char)
    requires LowerAscii(a) && LowerAscii(b)
    ensures LanguageCheck([a, b]) == Pass
  {
    assert [a, b][1..] == [b] && [b][1..] == [];
    assert Utf8Len([b]) == 1;
    assert Utf8Len([a, b]) == 2;
  }

  /** Two ASCII characters, not both lowercase letters, are refused for
      their characters. */
  lemma TwoNonLetters(a: char, b: char)
    requires a as int < 0x80 && b as int < 0x80 && !(LowerAscii(a) && LowerAscii(b))
    ensures LanguageCheck([a, b]) == Fail(LettersMessage([a, b]))
  {
    assert [a, b][1..] == [b] && [b][1..] == [];
    assert Utf8Len([b]) == 1;
    assert Utf8Len([a, b]) == 2;
    assert !LowerAscii([a, b][0]) || !LowerAscii([a, b][1]);
  }

  /** The codes of the source's tests. */
  lemma LanguageTestCodes()
    ensures LanguageCheck("en") == Pass && LanguageCheck("es") == Pass && LanguageCheck("fr") == Pass
    ensures LanguageCheck("de") == Pass && LanguageCheck("jp") == Pass && LanguageCheck("zh") == Pass
    ensures LanguageCheck("a") == Fail(LengthMessage("a")) && LanguageCheck("abcd") == Fail(LengthMessage("abcd"))
    ensures LanguageCheck("EN") == Fail(LettersMessage("EN")) && LanguageCheck("e1") == Fail(LettersMessage("e1"))
  {
    TwoLetters('e', 'n');
    TwoLetters('e', 's');
    TwoLetters('f', 'r');
    TwoLetters('d', 'e');
    TwoLetters('j', 'p');
    TwoLetters('z', 'h');
    TwoNonLetters('E', 'N');
    TwoNonLetters('e', '1');
    Utf8LenAtLeast("abcd");
  }

  /** The first check counts bytes, not characters: two characters outside
      ASCII are refused for their length, one two-byte character only for
      not being a letter. */
  lemma LengthCountsBytes()
    ensures LanguageCheck("\U{E9}") == Fail(LettersMessage("\U{E9}"))
    ensures LanguageCheck("\U{65E5}\U{672C}") == Fail(LengthMessage("\U{65E5}\U{672C}"))
  {
    var e := '\U{E9}';
    assert [e][1..] == [] && Utf8Len([e]) == 2 && !LowerAscii([e][0]);
    var ri := '\U{65E5}';
    var hon := '\U{672C}';
    assert [ri, hon][1..] == [hon] && [hon][1..] == [] && Utf8Len([ri, hon]) == 6;
  }

  /** The code "test" sent by `ndict test` is four bytes long. */
  lemma TestCodeTooLong()
    ensures LanguageCheck("test") == Fail(LengthMessage("test"))
  {
    var s := "test";
    assert s[1..][1..][1..][1..] == [];
    Utf8LenAtLeast(s);
  }

  // ---------------------------------------------------------------------------
  // Properties of the handlers

  /** The engine stage touches only the two engine slots and never empties
      one. */
  lemma EngineStageFrame(d: Daemon, env: Environment)
    ensures var n := EngineStage(d, env).0;
      n == d.(slots := d.slots.(streamingEngine := n.slots.streamingEngine, hasBatchEngine := n.slots.hasBatchEngine)) &&
      (d.slots.hasBatchEngine ==> n.slots.hasBatchEngine) &&
      (d.slots.streamingEngine.Some? ==> n.slots.streamingEngine.Some?)
  {
  }

  /** The engine stage fills the slot for the mode with a loaded engine
      unless an external step fails; a filled slot makes it do nothing. */
  lemma EngineStageFacts(d: Daemon, env: Environment)
    ensures var (n, r) := EngineStage(d, env);
      (EngineLoaded(d) ==> EngineLoaded(n)) &&
      (Working(env) ==> r == Pass) &&
      (r == Pass ==> if d.config.streamingMode then n.slots.streamingEngine.Some? else n.slots.hasBatchEngine) &&
      ((if d.config.streamingMode then d.slots.streamingEngine.Some? else d.slots.hasBatchEngine) ==> (n, r) == (d, Pass))
  {
  }

  /** The keyboard stage touches only the keyboard slot. */
  lemma KeyboardStageFacts(d: Daemon, env: Environment)
    ensures var (n, r) := KeyboardStage(d, env);
      n == d.(slots := d.slots.(hasKeyboard := n.slots.hasKeyboard)) &&
      (r == Pass <==> d.slots.hasKeyboard || env.createKeyboard.Pass?) &&
      (r == Pass ==> n.slots.hasKeyboard) && (r.Fail? ==> n == d && r == env.createKeyboard) &&
      (d.slots.hasKeyboard ==> (n, r) == (d, Pass))
  {
  }

  /** The capture stage fills the capture and receiver slots, or fails with
      the device's error and changes nothing. */
  lemma CaptureStageFacts(d: Daemon, env: Environment)
    ensures var (n, r) := CaptureStage(d, env);
      (r == Pass <==> env.openCapture.Pass? && env.startCapture.Pass?) &&
      (r == Pass ==> n == d.(slots := d.slots.(hasCapture := true, hasReceiver := true))) &&
      (r.Fail? ==> n == d && r == if env.openCapture.Fail? then env.openCapture else env.startCapture)
  {
  }

  /** The processing stage touches only the processing flag, the task
      handles, the receiver and the streaming engine, which it never empties
      or fills. */
  lemma ProcessingStageFrame(d: Daemon)
    ensures var n := ProcessingStage(d).0;
      n == d.(isProcessing := n.isProcessing, tasks := n.tasks,
              slots := d.slots.(hasReceiver := n.slots.hasReceiver, streamingEngine := n.slots.streamingEngine)) &&
      (n.slots.streamingEngine.Some? <==> d.slots.streamingEngine.Some?)
  {
    if !d.config.streamingMode {
      StartProcessingEffect(d, false);
    } else if d.slots.streamingEngine.None? {
      StartProcessingEffect(d, true);
    } else {
      var started := StreamingEngine.StartStep(d.slots.streamingEngine.value);
      StartProcessingEffect(d.(slots := d.slots.(streamingEngine := Some(started.0))), true);
    }
  }

  /** With a loaded engine, the processing stage succeeds exactly when the
      daemon is not processing and holds the receiver; it then runs the task
      of the mode and, in streaming mode, the engine. */
  lemma ProcessingStageFacts(d: Daemon)
    ensures var (n, r) := ProcessingStage(d);
      (EngineLoaded(d) ==> (r == Pass <==> !d.isProcessing && d.slots.hasReceiver) && EngineLoaded(n)) &&
      (r == Pass ==> n.isProcessing && !n.slots.hasReceiver &&
                     if d.config.streamingMode
                     then n.tasks.streamingTask && (n.slots.streamingEngine.Some? ==> n.slots.streamingEngine.value.running)
                     else n.tasks.vadTask)
  {
  }

  /** `Start` activates before anything else, so even a failed start leaves
      the daemon active; while processing it fails at once and changes
      nothing else. It never touches the configuration, the language slot or
      the limiter, and never empties a filled engine or keyboard slot. */
  lemma StartKeeps(d: Daemon, env: Environment)
    ensures d.isProcessing ==> StartCommand(d, env) == (d.(isActive := true), Fail(AlreadyProcessing))
    ensures var n := StartCommand(d, env).0;
      n.isActive && n.config == d.config && n.language == d.language && n.limiter == d.limiter &&
      (d.slots.hasBatchEngine ==> n.slots.hasBatchEngine) && (d.slots.hasKeyboard ==> n.slots.hasKeyboard) &&
      (d.slots.streamingEngine.Some? ==> n.slots.streamingEngine.Some?)
  {
    var a := ActivateStep(d);
    if !a.isProcessing {
      EngineStageFrame(a, env);
      EngineStageFacts(a, env);
      var b := EngineStage(a, env).0;
      KeyboardStageFacts(b, env);
      var c := KeyboardStage(b, env).0;
      CaptureStageFacts(c, env);
      var e := CaptureStage(c, env).0;
      ProcessingStageFrame(e);
      ProcessingStageFacts(e);
    }
  }

  /** With the engine for the mode and the keyboard already present, `Start`
      does not look at the outcomes of creating or loading them: only the
      audio device matters. */
  lemma StartReusesSlots(d: Daemon, env: Environment, other: Environment)
    requires if d.config.streamingMode then d.slots.streamingEngine.Some? else d.slots.hasBatchEngine
    requires d.slots.hasKeyboard
    requires env.openCapture == other.openCapture && env.startCapture == other.startCapture
    ensures StartCommand(d, env) == StartCommand(d, other)
  {
    var a := ActivateStep(d);
    EngineStageFacts(a, env);
    EngineStageFacts(a, other);
    KeyboardStageFacts(a, env);
    KeyboardStageFacts(a, other);
  }

  /** When every external step works and the daemon is not processing,
      `Start` succeeds; a success leaves the daemon active and processing with
      the task of its mode, the capture running and the receiver handed to
      the task. */
  lemma StartSucceeds(d: Daemon, env: Environment)
    requires EngineLoaded(d)
    ensures Working(env) && !d.isProcessing ==> StartCommand(d, env).1 == Pass
    ensures var (n, r) := StartCommand(d, env);
      r == Pass ==>
        n.isActive && n.isProcessing && n.slots.hasCapture && !n.slots.hasReceiver && n.slots.hasKeyboard && EngineLoaded(n) &&
        if d.config.streamingMode
        then n.tasks.streamingTask && n.slots.streamingEngine.Some? && n.slots.streamingEngine.value.running
        else n.tasks.vadTask && n.slots.hasBatchEngine
  {
    var a := ActivateStep(d);
    if !a.isProcessing {
      EngineStageFrame(a, env);
      EngineStageFacts(a, env);
      var b := EngineStage(a, env).0;
      KeyboardStageFacts(b, env);
      var c := KeyboardStage(b, env).0;
      CaptureStageFacts(c, env);
      var e := CaptureStage(c, env).0;
      ProcessingStageFrame(e);
      ProcessingStageFacts(e);
    }
  }

  /** A failing audio device fails `Start` with the device's error, whatever
      else happened before. */
  lemma StartNeedsCapture(d: Daemon, env: Environment)
    requires env.openCapture.Fail? || env.startCapture.Fail?
    ensures StartCommand(d, env).1.Fail?
  {
    var a := ActivateStep(d);
    if !a.isProcessing {
      var b := EngineStage(a, env).0;
      KeyboardStageFacts(b, env);
      CaptureStageFacts(KeyboardStage(b, env).0, env);
    }
  }

  /** `Stop` always succeeds and leaves nothing running: no processing, no
      task, no capture, no receiver, no streaming engine. The batch engine and
      the keyboard stay loaded, and stopping twice is stopping once. */
  lemma StopEffect(d: Daemon)
    ensures var (n, r) := StopCommand(d);
      r == Pass && !n.isActive && !n.isProcessing && !n.tasks.vadTask && !n.tasks.streamingTask &&
      !n.slots.hasCapture && !n.slots.hasReceiver && n.slots.streamingEngine == None &&
      n.slots.hasBatchEngine == d.slots.hasBatchEngine && n.slots.hasKeyboard == d.slots.hasKeyboard &&
      n.language == d.language && n.limiter == d.limiter && n.config == d.config
    ensures StopCommand(StopCommand(d).0) == StopCommand(d)
  {
  }

  /** `Pause` fails unless active; otherwise it stops processing and
      deactivates, and the capture keeps its slot. */
  lemma PauseEffect(d: Daemon)
    ensures var (n, r) := PauseCommand(d);
      (r == Pass <==> d.isActive) &&
      (r.Fail? ==> n == d && r.msg == NotActive) &&
      (r == Pass ==> !n.isActive && !n.isProcessing && !n.tasks.vadTask && !n.tasks.streamingTask &&
                     n.slots.streamingEngine == None && n.slots.hasCapture == d.slots.hasCapture && n.slots.hasReceiver == d.slots.hasReceiver)
  {
  }

  /** `Resume` checks, in order: not active, a capture present, then the task
      can start. It activates only once the task has started. */
  lemma ResumeOrder(d: Daemon)
    ensures var (n, r) := ResumeCommand(d);
      (d.isActive ==> (n, r) == (d, Fail(AlreadyActive))) &&
      (!d.isActive && !d.slots.hasCapture ==> (n, r) == (d, Fail(NoCapture))) &&
      (r == Pass <==> !d.isActive && d.slots.hasCapture && !d.isProcessing && d.slots.hasReceiver) &&
      (r == Pass ==> n.isActive && n.isProcessing && !n.slots.hasReceiver) &&
      (r.Fail? ==> n.isActive == d.isActive)
  {
  }

  /** The receiver is taken by the task `Start` spawns and neither `Pause`
      nor the task gives it back, so `Resume` after a successful `Start` and
      a `Pause` always fails. */
  lemma ResumeAfterPauseFails(d: Daemon, env: Environment)
    requires StartCommand(d, env).1 == Pass
    ensures var paused := PauseCommand(StartCommand(d, env).0);
      paused.1 == Pass && ResumeCommand(paused.0) == (paused.0, Fail(NoReceiver))
  {
    assert !StartCommand(d, env).0.slots.hasReceiver;
  }

  /** `SetLanguage` stores a valid code in the language slot and in the
      streaming engine, if one is loaded, and changes nothing else; an invalid
      code changes nothing. */
  lemma SetLanguageEffect(d: Daemon, lang: string)
    ensures var (n, r) := SetLanguageCommand(d, lang);
      (r == Pass <==> 2 <= |lang| <= 3 && forall i :: 0 <= i < |lang| ==> LowerAscii(lang[i])) &&
      (r.Fail? ==> n == d) &&
      (r == Pass ==>
        n.language == lang &&
        (n.slots.streamingEngine.Some? <==> d.slots.streamingEngine.Some?) &&
        (n.slots.streamingEngine.Some? ==> n.slots.streamingEngine.value == d.slots.streamingEngine.value.(language := lang)) &&
        n.(language := d.language, slots := n.slots.(streamingEngine := d.slots.streamingEngine)) == d)
  {
    LanguageCheckIff(lang);
  }

  /** The status report does not see the language set: it reports the
      configured one. */
  lemma StatusIgnoresSetLanguage(d: Daemon, lang: string)
    ensures StatusOf(SetLanguageCommand(d, lang).0) == StatusOf(d)
    ensures StatusOf(d).language == d.config.language
  {
  }

  // ---------------------------------------------------------------------------
  // Properties of execute_command

  /** A refused command is answered with the rate-limit error and changes
      nothing, whatever the command. */
  lemma RateLimitedChangesNothing(d: Daemon, cmd: Ipc.Command, env: Environment)
    requires !RateLimit.Admit(d.limiter).1
    ensures Execute(d, cmd, env) == (d, Ok(Ipc.Response.Error(RateLimitMessage)))
  {
  }

  /** `Response::Error` comes only from the rate limiter: handler failures are
      errors of `execute_command`. */
  lemma ErrorReplyOnlyFromLimiter(d: Daemon, cmd: Ipc.Command, env: Environment)
    ensures Execute(d, cmd, env).1.Ok? && Execute(d, cmd, env).1.value.Error? <==> !RateLimit.Admit(d.limiter).1
    ensures Execute(d, cmd, env).1.Ok? && Execute(d, cmd, env).1.value.Error? ==>
      Execute(d, cmd, env).1.value.msg == RateLimitMessage
  {
  }

  /** `SetLanguage("test")` never passes: admitted, it fails validation and
      only spends its cell; refused, it is the rate-limit error. */
  lemma TestCommandFails(d: Daemon, env: Environment)
    ensures var (n, r) := Execute(d, Ipc.SetLanguage("test"), env);
      n == d.(limiter := RateLimit.Admit(d.limiter).0) || n == d
    ensures var (n, r) := Execute(d, Ipc.SetLanguage("test"), env);
      if RateLimit.Admit(d.limiter).1 then r == Err(LengthMessage("test"))
      else r == Ok(Ipc.Response.Error(RateLimitMessage))
  {
    TestCodeTooLong();
  }

  /** The daemon after a series of commands, each with the environment it
      meets. */
  function Replay(d: Daemon, steps: seq<(Ipc.Command, Environment)>): Daemon
    decreases |steps|
  {
    if steps == [] then d
    else Replay(Execute(d, steps[0].0, steps[0].1).0, steps[1..])
  }

  /** Every command keeps a streaming engine in the slot loaded: `Start`
      puts only a loaded one there, `SetLanguage` changes only its language,
      and `Stop` and `Pause` empty the slot. */
  lemma ExecuteKeepsEngineLoaded(d: Daemon, cmd: Ipc.Command, env: Environment)
    requires EngineLoaded(d)
    ensures EngineLoaded(Execute(d, cmd, env).0)
  {
    var a := RateLimit.Admit(d.limiter);
    if a.1 {
      var d1 := d.(limiter := a.0);
      if cmd.Start? || (cmd.Toggle? && !StatusOf(d1).isActive) {
        StartKeepsEngineLoaded(d1, env);
      }
    }
  }

  lemma StartKeepsEngineLoaded(d: Daemon, env: Environment)
    requires EngineLoaded(d)
    ensures EngineLoaded(StartCommand(d, env).0)
  {
    var a := ActivateStep(d);
    if !a.isProcessing {
      EngineStageFacts(a, env);
      var b := EngineStage(a, env).0;
      var c := KeyboardStage(b, env).0;
      var e := CaptureStage(c, env).0;
      ProcessingStageFacts(e);
    }
  }

  /** A new daemon has nothing in the streaming slot, so on every daemon that
      commands can reach from it a streaming engine in the slot is loaded,
      and `StartSucceeds` applies. */
  lemma {:induction false} ReachedEngineLoaded(config: Config, steps: seq<(Ipc.Command, Environment)>)
    requires Admissible(config)
    ensures EngineLoaded(Replay(NewDaemon(config), steps))
  {
    ReplayKeepsEngineLoaded(NewDaemon(config), steps);
  }

  lemma {:induction false} ReplayKeepsEngineLoaded(d: Daemon, steps: seq<(Ipc.Command, Environment)>)
    requires EngineLoaded(d)
    ensures EngineLoaded(Replay(d, steps))
    decreases |steps|
  {
    if steps != [] {
      ExecuteKeepsEngineLoaded(d, steps[0].0, steps[0].1);
      ReplayKeepsEngineLoaded(Execute(d, steps[0].0, steps[0].1).0, steps[1..]);
    }
  }

  /** An admitted command spends its cell and then runs its handler; the reply
      is `Ok` exactly when the handler passes. */
  lemma AdmittedDispatches(d: Daemon, cmd: Ipc.Command, env: Environment)
    requires RateLimit.Admit(d.limiter).1
    ensures var n := d.(limiter := RateLimit.Admit(d.limiter).0);
      Execute(d, cmd, env) ==
        match cmd
        case Start => Answer(StartCommand(n, env))
        case Stop => Answer(StopCommand(n))
        case Pause => Answer(PauseCommand(n))
        case Resume => Answer(ResumeCommand(n))
        case Status => (n, Ok(Ipc.Response.Status(StatusOf(d))))
        case SetLanguage(lang) => Answer(SetLanguageCommand(n, lang))
        case Toggle => if d.isActive then Answer(StopCommand(n)) else Answer(StartCommand(n, env))
    ensures var n := d.(limiter := RateLimit.Admit(d.limiter).0);
      Execute(d, cmd, env).1 == Ok(Ipc.Response.Ok) <==>
      match cmd
      case Start => StartCommand(n, env).1 == Pass
      case Stop => true
      case Pause => d.isActive
      case Resume => ResumeCommand(n).1 == Pass
      case Status => false
      case SetLanguage(lang) => LanguageCheck(lang) == Pass
      case Toggle => d.isActive || StartCommand(n, env).1 == Pass
  {
  }

  /** `Toggle` is `Stop` when active and `Start` otherwise. */
  lemma ToggleDispatch(d: Daemon, env: Environment)
    ensures Execute(d, Ipc.Toggle, env) == Execute(d, if d.isActive then Ipc.Stop else Ipc.Start, env)
  {
  }

  /** With limiting on, a run of `Status` commands is answered with the
      status while cells are left and with the rate-limit error after that;
      with limiting off, always with the status. */
  lemma {:induction false} StatusAnswersBurst(d: Daemon, n: nat, env: Environment)
    requires RateLimit.Valid(d.limiter)
    ensures var answers := StatusAnswers(d, n, env);
      |answers| == n &&
      forall i :: 0 <= i < n ==>
        answers[i] == if !d.limiter.enabled || d.limiter.spent + i < d.limiter.burst
                      then Ok(Ipc.Response.Status(StatusOf(d)))
                      else Ok(Ipc.Response.Error(RateLimitMessage))
    decreases n
  {
    if n > 0 {
      var first := Execute(d, Ipc.Command.Status, env);
      RateLimit.CheckEffect(d.limiter);
      StatusAnswersBurst(first.0, n - 1, env);
      var answers := StatusAnswers(d, n, env);
      forall i | 0 <= i < n
        ensures answers[i] == if !d.limiter.enabled || d.limiter.spent + i < d.limiter.burst
                              then Ok(Ipc.Response.Status(StatusOf(d)))
                              else Ok(Ipc.Response.Error(RateLimitMessage))
      {
        if i > 0 {
          assert answers[i] == StatusAnswers(first.0, n - 1, env)[i - 1];
          if d.limiter.enabled && d.limiter.spent >= d.limiter.burst {
            assert first.0 == d;
          }
        }
      }
    }
  }

  /** The burst test: a new daemon with burst 5 answers five status requests
      and refuses the sixth and the seventh. */
  lemma BurstOfFive(config: Config, env: Environment)
    requires Admissible(config) && config.rateLimitEnabled && config.burstCapacity == 5
    ensures var answers := StatusAnswers(NewDaemon(config), 7, env);
      (forall i :: 0 <= i < 5 ==> answers[i].Ok? && answers[i].value.Status?) &&
      answers[5] == Ok(Ipc.Response.Error(RateLimitMessage)) &&
      answers[6] == Ok(Ipc.Response.Error(RateLimitMessage))
  {
    StatusAnswersBurst(NewDaemon(config), 7, env);
  }

  // ---------------------------------------------------------------------------
  // The handlers, on the daemon's state object

  /** The engine part of `handle_start`. */
  method PrepareEngine(d: DaemonState, env: Environment) returns (r: Outcome)
    modifies d
    ensures (d.View(), r) == EngineStage(old(d.View()), env)
  {
    r := Pass;
    if d.config.streamingMode {
      if d.streamingEngine.None? {
        if env.locateModel.Fail? {
          return env.locateModel;
        }
        var engine := new StreamingEngine.StreamingEngine(d.config.language, d.config.stepMs, d.config.lengthMs,
                                                          d.config.keepMs, d.config.sampleRate);
        r := engine.LoadModel(env.loadModel);
        if r.Pass? {
          d.streamingEngine := Some(engine.View());
        }
      }
    } else if !d.hasBatchEngine {
      if env.createEngine.Fail? {
        return env.createEngine;
      }
      if env.loadModel.Fail? {
        return env.loadModel;
      }
      d.hasBatchEngine := true;
    }
  }

  /** The keyboard part of `handle_start`. */
  method PrepareKeyboard(d: DaemonState, env: Environment) returns (r: Outcome)
    modifies d
    ensures (d.View(), r) == KeyboardStage(old(d.View()), env)
  {
    r := Pass;
    if !d.hasKeyboard {
      if env.createKeyboard.Fail? {
        return env.createKeyboard;
      }
      d.hasKeyboard := true;
    }
  }

  /** The capture part of `handle_start`. */
  method OpenCapture(d: DaemonState, env: Environment) returns (r: Outcome)
    modifies d
    ensures (d.View(), r) == CaptureStage(old(d.View()), env)
  {
    if env.openCapture.Fail? {
      return env.openCapture;
    }
    if env.startCapture.Fail? {
      return env.startCapture;
    }
    d.hasCapture := true;
    d.hasReceiver := true;
    r := Pass;
  }

  /** The last part of `handle_start`. */
  method StartProcessing(d: DaemonState) returns (r: Outcome)
    modifies d
    ensures (d.View(), r) == ProcessingStage(old(d.View()))
  {
    if !d.config.streamingMode {
      r := d.StartVadProcessing();
    } else {
      if d.streamingEngine.Some? {
        var started := StreamingEngine.StartStep(d.streamingEngine.value);
        d.streamingEngine := Some(started.0);
        if started.1.Fail? {
          return started.1;
        }
      }
      r := d.StartStreamingProcessing();
    }
  }

  /** `handle_start`. */
  method HandleStart(d: DaemonState, env: Environment) returns (r: Outcome)
    modifies d
    ensures (d.View(), r) == StartCommand(old(d.View()), env)
  {
    r := d.Activate();
    if d.isProcessing {
      return Fail(AlreadyProcessing);
    }
    r := PrepareEngine(d, env);
    if r.Fail? {
      return;
    }
    r := PrepareKeyboard(d, env);
    if r.Fail? {
      return;
    }
    r := OpenCapture(d, env);
    if r.Fail? {
      return;
    }
    r := StartProcessing(d);
  }

  /** `handle_stop`. */
  method HandleStop(d: DaemonState) returns (r: Outcome)
    modifies d
    ensures (d.View(), r) == StopCommand(old(d.View()))
  {
    d.StopVadProcessing();
    d.hasCapture := false;
    d.hasReceiver := false;
    r := d.Deactivate();
  }

  /** `handle_pause`. */
  method HandlePause(d: DaemonState) returns (r: Outcome)
    modifies d
    ensures (d.View(), r) == PauseCommand(old(d.View()))
  {
    if !d.isActive {
      return Fail(NotActive);
    }
    d.StopVadProcessing();
    r := d.Deactivate();
  }

  /** `handle_resume`. */
  method HandleResume(d: DaemonState) returns (r: Outcome)
    modifies d
    ensures (d.View(), r) == ResumeCommand(old(d.View()))
  {
    if d.isActive {
      return Fail(AlreadyActive);
    }
    if !d.hasCapture {
      return Fail(NoCapture);
    }
    if d.config.streamingMode {
      r := d.StartStreamingProcessing();
    } else {
      r := d.StartVadProcessing();
    }
    if r.Fail? {
      return;
    }
    r := d.Activate();
  }

  /** `handle_set_language`. */
  method HandleSetLanguage(d: DaemonState, lang: string) returns (r: Outcome)
    modifies d
    ensures (d.View(), r) == SetLanguageCommand(old(d.View()), lang)
  {
    r := LanguageCheck(lang);
    if r.Fail? {
      return;
    }
    d.language := lang;
    if d.streamingEngine.Some? {
      d.streamingEngine := Some(StreamingEngine.LanguageStep(d.streamingEngine.value, lang));
    }
  }

  /** `execute_command`. */
  method ExecuteCommand(d: DaemonState, cmd: Ipc.Command, env: Environment) returns (r: Result<Ipc.Response>)
    modifies d
    ensures (d.View(), r) == Execute(old(d.View()), cmd, env)
  {
    var admit := RateLimit.Admit(d.limiter);
    if !admit.1 {
      return Ok(Ipc.Response.Error(RateLimitMessage));
    }
    d.limiter := admit.0;
    var o: Outcome;
    match cmd {
      case Start =>
        o := HandleStart(d, env);
      case Stop =>
        o := HandleStop(d);
      case Pause =>
        o := HandlePause(d);
      case Resume =>
        o := HandleResume(d);
      case Status =>
        return Ok(Ipc.Response.Status(d.GetStatus()));
      case SetLanguage(lang) =>
        o := HandleSetLanguage(d, lang);
      case Toggle =>
        var status := d.GetStatus();
        if status.isActive {
          o := HandleStop(d);
        } else {
          o := HandleStart(d, env);
        }
    }
    r := if o.Pass? then Ok(Ipc.Response.Ok) else Err(o.msg);
  }
}

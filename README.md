# ndict core, modelled in Dafny

ndict is a dictation tool with two parts:
- a daemon, `ndictd`, captures audio, cuts it into utterances or rolling windows, transcribes them with Whisper and types the text;
- a command line, `ndict`, sends it one JSON command over a Unix socket and prints the reply.

This project models the daemon's decision logic as sequential Dafny code. Hardware, the recogniser and the clock are inputs. It also proves what that logic promises.

| file | module | models |
|---|---|---|
| `common.dfy` | `Common` | `Option`, `Result`, `Outcome` (a handler's `Ok(())` or error message), Rust's `str::trim` |
| `speech_detector.dfy` | `SpeechSegmenter` | the three-state speech segmenter `SpeechDetector` |
| `post_process.dfy` | `PostProcess` | `post_process_transcription` |
| `streaming_engine.dfy` | `StreamingEngine` | the rolling-window `StreamingEngine` |
| `streaming_wrapper.dfy` | `StreamingWrapper` | the 3-second-window `StreamingWrapper` |
| `mock_engine.dfy` | `MockEngine` | the mock batch `WhisperEngine` |
| `rate_limit.dfy` | `RateLimit` | `CommandRateLimiter`, with the clock frozen |
| `state.dfy` | `State` | `DaemonState`, its two processing tasks and the status report |
| `server.dfy` | `Server` | `execute_command`, the `handle_*` helpers and Toggle |
| `ipc.dfy` | `Ipc` | `Command`, `Response`, `StatusInfo`, `IpcError` and their JSON text |
| `cli.dfy` | `Cli` | the subcommand-to-command mapping and the reply handling of `ndict` |
| `session.dfy` | `Session` | one `ndict` run: encode, execute, reply, print |

Imperative source files follow one pattern:
- a value datatype holds the object's fields;
- pure step functions say what each operation does to that value;
- lemmas state the promised properties about the step functions;
- a class with the same fields has methods that update them in place. Each method's contract ties the new state and the result to the step function applied to the old state (`(View(), r) == Step(old(View()), ...)`).

Things the source does, made visible by the model:
- `handle_start` raises `is_active` before anything can fail. A failed Start leaves the daemon active (`Server.StartKeeps`).
- Both start functions `take()` the broadcast receiver. Pause followed by Resume after a successful Start therefore fails with "Audio receiver not available" (`Server.ResumeAfterPauseFails`).
- `stop_vad_processing` drops the streaming engine. In streaming mode, Stop and Pause leave the engine slot empty and the next Start loads a new model. "Model kept in memory" holds only for the batch engine (`Server.StopEffect`).
- A handler error propagates out of `execute_command` as `Err`. `handle_connection` then closes the socket without a reply, and the client fails to decode an empty reply. The user sees "Failed to connect to ndictd: Serialization error: EOF while parsing a value at line 1 column 0" and the handler's message is lost (`Session.HandlerFailureLooksLikeNoDaemon`).
- `Response::Error` is produced only by the rate limiter (`Server.ErrorReplyOnlyFromLimiter`).
- `ndict test` sends `SetLanguage("test")`, whose four bytes fail the length check. It always exits with status 1 (`Session.TestAlwaysFails`).
- The language check counts UTF-8 bytes and not characters (`Server.LengthCountsBytes`).
- It checks only shape: any two or three lowercase ASCII letters pass.

Where the code and its tests or comments disagree, the model follows the code:
- `get_status` reports the configured language (`daemon/src/state.rs:60`), not the one `SetLanguage` stored. The test at `daemon/src/server.rs:456-467` expects the stored one (`State.StatusReadsConfig`, `Server.StatusIgnoresSetLanguage`).
- `process_chunk` returns before buffering when no model is loaded (`daemon/src/transcription/streaming_wrapper.rs:61`). The test at lines 211-222 expects the buffer to grow (`StreamingWrapper.UnloadedBufferStaysEmpty`).
- Errors of the handlers are `Err` results of `execute_command`, not `Response::Error` replies.

The source is not self-consistent in places, so the model fills these gaps:
- `DaemonState` declares no `language` field, though `handle_set_language` writes one. The model adds a language slot, initialised from the configuration.
- `get_rate_limiter` is not defined. The model holds the limiter's value inside the daemon's state.
- The configuration fields the core reads are parameters (`State.Config`), because `daemon/src/config.rs` lacks several of them.

## Model

| member | source | states |
|---|---|---|
| `Common.TrimStart` | daemon/src/transcription/mod.rs:5 | the result is a suffix of the input and does not start with whitespace |
| `Common.TrimEnd` | daemon/src/transcription/mod.rs:5 | the result is a prefix of the input and does not end with whitespace |
| `Common.Trim` | daemon/src/transcription/mod.rs:5 | `str::trim`: `TrimEdges`, `TrimSlice`, `TrimEmptyIff` and the two cut lemmas state it |
| `Common.TrimStartCutsSpace` | daemon/src/transcription/mod.rs:5 | everything cut from the front is whitespace |
| `Common.TrimEndCutsSpace` | daemon/src/transcription/mod.rs:5 | everything cut from the back is whitespace |
| `Common.TrimEdges` | daemon/src/transcription/mod.rs:17 | a trimmed text is empty or has non-whitespace at both ends |
| `Common.TrimSlice` | daemon/src/transcription/mod.rs:22 | the trimmed text is a contiguous slice of the input |
| `Common.TrimEmptyIff` | daemon/src/transcription/mod.rs:5 | trimming gives "" exactly when the input is all whitespace |
| `SpeechSegmenter.NewDetector` | daemon/src/vad/speech_detector.rs:24-48 | a new detector is Idle, with no timestamps and an empty buffer, keeping the silence duration and gain |
| `SpeechSegmenter.Step` | daemon/src/vad/speech_detector.rs:50-105 | one call of `process_audio` on a detector value, with the speech verdict and the time as arguments; `StepPreservesInv`, `IdleStep`, `BufferGrowsWhileOpen`, `SpeakingToSilence`, `FalseAlarm`, `SilenceFinalises` and `EmitOnlyOnConfirmedSilence` state what it does |
| `SpeechSegmenter.SilenceExceeded` | daemon/src/vad/speech_detector.rs:118-122 | whether the silence started at the recorded time has lasted the configured duration; false when no silence start is recorded (used by `SilenceFinalises`) |
| `SpeechSegmenter.ToSpeaking` | daemon/src/vad/speech_detector.rs:107-111 | the move to Speaking that records the speech start and clears the silence start (`IdleStep`, `FalseAlarm`) |
| `SpeechSegmenter.ToSilenceDetected` | daemon/src/vad/speech_detector.rs:113-116 | the move to SilenceDetected that records the silence start (`SpeakingToSilence`) |
| `SpeechSegmenter.Reset` | daemon/src/vad/speech_detector.rs:131-135 | the return to Idle with both timestamps cleared and the buffer left as it is (`SilenceFinalises`, `StepPreservesInv`) |
| `SpeechSegmenter.Amplify` | daemon/src/vad/speech_detector.rs:96-98 | the emitted segment has the buffer's length and each sample multiplied by the gain |
| `SpeechSegmenter.StepPreservesInv` | daemon/src/vad/speech_detector.rs:50-105 | every step keeps the detector's invariant: timestamps and buffer agree with the state |
| `SpeechSegmenter.IdleStep` | daemon/src/vad/speech_detector.rs:56-63 | in Idle nothing is emitted; non-speech (even an empty chunk) changes nothing; speech moves to Speaking with the chunk buffered and the speech start recorded |
| `SpeechSegmenter.BufferGrowsWhileOpen` | daemon/src/vad/speech_detector.rs:64-77 | outside Idle, a step that emits nothing appends the whole chunk, whatever its classification |
| `SpeechSegmenter.SpeakingToSilence` | daemon/src/vad/speech_detector.rs:66-75 | Speaking then non-speech moves to SilenceDetected and records the silence start, without emitting even for a zero silence duration |
| `SpeechSegmenter.FalseAlarm` | daemon/src/vad/speech_detector.rs:79-85 | SilenceDetected then speech returns to Speaking, clears the silence start, keeps the buffer and emits nothing |
| `SpeechSegmenter.SilenceFinalises` | daemon/src/vad/speech_detector.rs:86-99 | SilenceDetected then non-speech emits the gain-scaled buffer once the silence has lasted long enough, and leaves a fresh detector; otherwise it only buffers |
| `SpeechSegmenter.EmitOnlyOnConfirmedSilence` | daemon/src/vad/speech_detector.rs:50-105 | a step emits exactly when the detector is in SilenceDetected, the chunk is not speech and the silence duration has passed |
| `SpeechSegmenter.SpeechAccumulates` | daemon/src/vad/speech_detector.rs:64-66 | a run of speech chunks while Speaking emits nothing and buffers all of them |
| `SpeechSegmenter.RunOne` | daemon/src/vad/speech_detector.rs:50-105 | a run of one chunk is one step |
| `SpeechSegmenter.RunAppend` | daemon/src/vad/speech_detector.rs:50-105 | running two chunk sequences one after the other is running their concatenation |
| `SpeechSegmenter.OneUtterance` | daemon/src/vad/speech_detector.rs:56-99 | speech then two quiet chunks spanning the silence duration emit exactly one segment: all the audio, amplified; the detector is fresh again |
| `SpeechSegmenter.FalseAlarmRun` | daemon/src/vad/speech_detector.rs:79-85 | speech, a short silence, then speech emit nothing and keep all three chunks |
| `SpeechSegmenter.DurationMsAsWritten` | daemon/src/vad/speech_detector.rs:124-129 | the duration with the 32-bit truncation and wrap-around of the source never exceeds 2^32/16000 |
| `SpeechSegmenter.DurationWraps` | daemon/src/vad/speech_detector.rs:127 | 4294968 samples are reported as 0 ms instead of 268435 ms |
| `SpeechSegmenter.DurationMs` | daemon/src/vad/speech_detector.rs:124-129 | the duration is the sample count at 16 kHz in whole milliseconds, rounded down |
| `SpeechSegmenter.DurationAgreesBelowWrap` | daemon/src/vad/speech_detector.rs:124-129 | both durations agree while the product fits in 32 bits; 1600 samples are 100 ms |
| `SpeechSegmenter.SpeechDetector.constructor` | daemon/src/vad/speech_detector.rs:24-48 | the new object's fields are those of a new detector |
| `SpeechSegmenter.SpeechDetector.ProcessAudio` | daemon/src/vad/speech_detector.rs:50-105 | the fields are updated in place as one step does, with the classifier told "was speaking" only in Speaking |
| `SpeechSegmenter.SpeechDetector.TransitionToSpeaking` | daemon/src/vad/speech_detector.rs:107-111 | state Speaking, speech start now, silence start cleared |
| `SpeechSegmenter.SpeechDetector.TransitionToSilenceDetected` | daemon/src/vad/speech_detector.rs:113-116 | state SilenceDetected, silence start now |
| `SpeechSegmenter.SpeechDetector.SilenceDurationExceeded` | daemon/src/vad/speech_detector.rs:118-122 | true exactly when a silence start exists and at least the silence duration has passed |
| `SpeechSegmenter.SpeechDetector.ResetState` | daemon/src/vad/speech_detector.rs:131-135 | state Idle, both timestamps cleared, the buffer left as it is |
| `PostProcess.WordLen` | daemon/src/transcription/mod.rs:7 | the first word's length: non-whitespace up to the first whitespace |
| `PostProcess.SplitWhitespace` | daemon/src/transcription/mod.rs:7 | `split_whitespace`: the words, each non-empty and free of whitespace (`SplitWords`), inverse to `Join` on such words (`SplitJoin`) |
| `PostProcess.Join` | daemon/src/transcription/mod.rs:14 | `join(" ")`: single-spaced text with no edge whitespace (`JoinWellFormed`) that splits back into its words (`SplitJoin`) |
| `PostProcess.Dedup` | daemon/src/transcription/mod.rs:8-13 | the words the push loop keeps; `DedupLoop` computes it, and `DedupIsScan`, `DedupNoAdjacent`, `DedupKeepsNonAdjacent` and `DedupSameWords` state its properties |
| `PostProcess.PostProcess` | daemon/src/transcription/mod.rs:4-27 | the whole clean-up, in the order the source reassigns the text; `PostProcessTranscription` computes it, and `PostProcessTrimmed`, `PlainWords` and the example lemmas state its properties |
| `PostProcess.SplitWords` | daemon/src/transcription/mod.rs:7 | `split_whitespace` yields non-empty words without whitespace |
| `PostProcess.ReplaceDoubleSpace` | daemon/src/transcription/mod.rs:16-21 | one left-to-right pass replacing "  " by " " never lengthens the text |
| `PostProcess.FindClose` | daemon/src/transcription/mod.rs:19 | the closer found is the first one, with no closer and no newline before it (`.` does not match a newline) |
| `PostProcess.RemoveSpans` | daemon/src/transcription/mod.rs:19-20 | removing the bracketed spans never lengthens the text |
| `PostProcess.PostProcessTranscription` | daemon/src/transcription/mod.rs:4-27 | the step-by-step method computes the pipeline; the result has no edge whitespace, and all-whitespace input gives "" |
| `PostProcess.DedupLoop` | daemon/src/transcription/mod.rs:8-13 | the push loop keeps each word that differs from the last kept one; no two adjacent words of the result are equal |
| `PostProcess.PostProcessTrimmed` | daemon/src/transcription/mod.rs:5-22 | the result never has leading or trailing whitespace; whitespace-only input gives "" |
| `PostProcess.DedupNoAdjacent` | daemon/src/transcription/mod.rs:9-13 | deduplication leaves no adjacent repeats, never lengthens, and keeps the last word |
| `PostProcess.DedupKeepsNonAdjacent` | daemon/src/transcription/mod.rs:10 | words without adjacent repeats are kept as they are ("a b a" keeps both a's) |
| `PostProcess.DedupSameWords` | daemon/src/transcription/mod.rs:9-13 | deduplication drops no distinct word |
| `PostProcess.DedupIsScan` | daemon/src/transcription/mod.rs:8-13 | comparing with the last word kept is the same as comparing with the previous input word: the result is exactly the input words that differ from their predecessor |
| `PostProcess.JoinWellFormed` | daemon/src/transcription/mod.rs:14 | joining words with one space gives no double space and no edge whitespace |
| `PostProcess.ReplaceDoubleSpaceNoop` | daemon/src/transcription/mod.rs:16 | the space fix changes nothing in text without a double space |
| `PostProcess.TrimNoop` | daemon/src/transcription/mod.rs:17 | trimming changes nothing in text without edge whitespace |
| `PostProcess.RemoveSpansNoCloser` | daemon/src/transcription/mod.rs:19-20 | text with no closing bracket of any kind is kept whole; `RemoveSpansUnclosed` covers an unclosed opener followed by spans of other kinds |
| `PostProcess.RemoveSpansUnclosed` | daemon/src/transcription/mod.rs:19-20 | an opener whose own closer never follows is kept, and removal goes on after it; with `RemoveSpansPlainPrefix` and `RemoveSpansSpan` this fixes the result on every text without a line feed |
| `PostProcess.UnclosedBeforeSpan` | daemon/src/transcription/mod.rs:19-20 | "[a (b)" becomes "[a ": the unclosed "[" stays and "(b)" is removed |
| `PostProcess.RemoveSpansPlainPrefix` | daemon/src/transcription/mod.rs:19-20 | text before the first opener is kept |
| `PostProcess.RemoveSpansSpan` | daemon/src/transcription/mod.rs:19-20 | a span from an opener to its first matching closer is removed |
| `PostProcess.FindCloseAt` | daemon/src/transcription/mod.rs:19 | the match ends at the first closer (non-greedy) |
| `PostProcess.SplitJoin` | daemon/src/transcription/mod.rs:7-14 | splitting joined words gives the words back |
| `PostProcess.PlainWords` | daemon/src/transcription/mod.rs:4-27 | on words without brackets the pipeline is deduplication |
| `PostProcess.DedupExample` | daemon/src/transcription/mod.rs:7-14 | "hello hello world world" becomes "hello world" |
| `PostProcess.NonAdjacentExample` | daemon/src/transcription/mod.rs:10 | "a b a" is kept |
| `PostProcess.WordsPipeline` | daemon/src/transcription/mod.rs:5-17 | the word stage keeps single-spaced words without adjacent repeats |
| `PostProcess.AnnotationRemoved` | daemon/src/transcription/mod.rs:19-20 | a bracketed word is removed whole |
| `PostProcess.AnnotationBetweenWords` | daemon/src/transcription/mod.rs:4-27 | "a [x] b" becomes "a b"; with a = b ("hi [x] hi") both stay, since deduplication runs before the brackets are removed |
| `PostProcess.TrailingAnnotation` | daemon/src/transcription/mod.rs:4-27 | "a [x] b (y)" becomes "a b": annotations of two kinds go, and the space left before a final annotation is trimmed |
| `PostProcess.MixedAnnotations` | daemon/src/transcription/mod.rs:4-27 | "hello [noise] world (skip)" becomes "hello world" |
| `PostProcess.TwoAnnotationsLeaveDoubleSpace` | daemon/src/transcription/mod.rs:19-22 | "a [x] [y] b" becomes "a  b" with two spaces: the function is not idempotent |
| `PostProcess.TwoAnnotationsRemoved` | daemon/src/transcription/mod.rs:7-20 | the word stage keeps two different annotations and span removal leaves three spaces |
| `PostProcess.GapLeft` | daemon/src/transcription/mod.rs:21-22 | one pass of the space fix turns three spaces into two |
| `StreamingEngine.NewEngine` | daemon/src/transcription/streaming_engine.rs:20-42 | not loaded, not running, empty buffer and text; window and overlap sizes are ms times rate divided by 1000, rounded down |
| `StreamingEngine.NewEngineSizes` | daemon/src/transcription/streaming_engine.rs:163-186 | 10000 ms and 500 ms at 16 kHz give 160000 and 8000 samples; `step_ms` is ignored |
| `StreamingEngine.LoadStep` | daemon/src/transcription/streaming_engine.rs:44-60 | `load_model` with its outcome as an argument: a success marks the engine loaded, a failure changes nothing (`StartNeedsLoad`) |
| `StreamingEngine.StartStep` | daemon/src/transcription/streaming_engine.rs:62-73 | `start` on an engine value (`StartEffect`, `StartNeedsLoad`) |
| `StreamingEngine.Fresh` | daemon/src/transcription/streaming_engine.rs:146-154 | the end of `process_window`: which recognised text is passed on and what the last text becomes (`FreshIff`, `RepeatSuppressed`, `FullWindow`) |
| `StreamingEngine.StopStep` | daemon/src/transcription/streaming_engine.rs:103-108 | `stop` on an engine value (`StopEffect`) |
| `StreamingEngine.LanguageStep` | daemon/src/transcription/streaming_engine.rs:110-113 | `set_language` on an engine value (`SetLanguageOnly`) |
| `StreamingEngine.StartEffect` | daemon/src/transcription/streaming_engine.rs:62-73 | start fails with "Model not loaded" and changes nothing unless loaded; otherwise it runs with empty buffer and text |
| `StreamingEngine.StartNeedsLoad` | daemon/src/transcription/streaming_engine.rs:44-73 | an engine starts exactly when its model load succeeded |
| `StreamingEngine.SendStep` | daemon/src/transcription/streaming_engine.rs:75-101 | sending audio never changes the sizes, the running and loaded flags or the language |
| `StreamingEngine.IdleIgnoresAudio` | daemon/src/transcription/streaming_engine.rs:76-78 | an engine not running or not loaded ignores audio and answers nothing |
| `StreamingEngine.PartialWindowBuffers` | daemon/src/transcription/streaming_engine.rs:80-89 | below a full window the chunk is appended and nothing is answered |
| `StreamingEngine.FullWindow` | daemon/src/transcription/streaming_engine.rs:91-100 | on a full window a recogniser error is returned with the buffer untrimmed; on success the buffer becomes its suffix from length - keep |
| `StreamingEngine.KeepsOverlap` | daemon/src/transcription/streaming_engine.rs:93-98 | a window of exactly the length keeps its last `keep` samples |
| `StreamingEngine.FreshIff` | daemon/src/transcription/streaming_engine.rs:146-154 | text is emitted exactly when it is non-empty after trimming and differs from the last text, which it then replaces |
| `StreamingEngine.RepeatSuppressed` | daemon/src/transcription/streaming_engine.rs:148 | the same text twice in a row is emitted at most once |
| `StreamingEngine.StopEffect` | daemon/src/transcription/streaming_engine.rs:103-108 | stop clears running, the buffer and the last text; a stopped engine ignores audio |
| `StreamingEngine.SetLanguageOnly` | daemon/src/transcription/streaming_engine.rs:110-113 | setting the language changes nothing else |
| `StreamingEngine.StreamingEngine.constructor` | daemon/src/transcription/streaming_engine.rs:20-42 | the new object's fields are those of a new engine |
| `StreamingEngine.StreamingEngine.LoadModel` | daemon/src/transcription/streaming_engine.rs:44-60 | a successful load marks the engine loaded |
| `StreamingEngine.StreamingEngine.Start` | daemon/src/transcription/streaming_engine.rs:62-73 | the fields change as the start step says |
| `StreamingEngine.StreamingEngine.SendAudio` | daemon/src/transcription/streaming_engine.rs:75-101 | extends then trims the buffer in place as the send step says |
| `StreamingEngine.StreamingEngine.Stop` | daemon/src/transcription/streaming_engine.rs:103-108 | the fields change as the stop step says |
| `StreamingEngine.StreamingEngine.SetLanguage` | daemon/src/transcription/streaming_engine.rs:110-113 | only the language changes |
| `StreamingWrapper.NewWrapper` | daemon/src/transcription/streaming_wrapper.rs:18-34 | inactive, not loaded, empty; a 3000 ms window and a 500 ms overlap at the given rate |
| `StreamingWrapper.SixteenKilohertz` | daemon/src/transcription/streaming_wrapper.rs:169-178 | at 16 kHz the window is 48000 samples and the overlap 8000 |
| `StreamingWrapper.LoadStep` | daemon/src/transcription/streaming_wrapper.rs:36-51 | `load_model` with its outcome as an argument: a success marks a model present, a failure changes nothing (`StepsKeepValid`) |
| `StreamingWrapper.ActivateStep` | daemon/src/transcription/streaming_wrapper.rs:53-58 | `activate` on a wrapper value (`ActivateEffect`) |
| `StreamingWrapper.ChunkStep` | daemon/src/transcription/streaming_wrapper.rs:60-92 | `process_chunk` on a wrapper value (`IdleIgnoresChunk`, `PartialWindowBuffers`, `FullWindow`, `KeepsOverlap`, `NoRepeat`) |
| `StreamingWrapper.FinalizeStep` | daemon/src/transcription/streaming_wrapper.rs:94-116 | `finalize` on a wrapper value (`FinalizeEffect`, `NoRepeat`, `AccumulatedNotEmitted`) |
| `StreamingWrapper.DeactivateStep` | daemon/src/transcription/streaming_wrapper.rs:118-122 | `deactivate` on a wrapper value (`DeactivateEffect`) |
| `StreamingWrapper.Transcription` | daemon/src/transcription/streaming_wrapper.rs:128-161 | without a model it fails with "WhisperState not initialized"; the text is trimmed and recognised in English |
| `StreamingWrapper.StepsKeepValid` | daemon/src/transcription/streaming_wrapper.rs:18-122 | every operation keeps overlap at most window |
| `StreamingWrapper.ActivateEffect` | daemon/src/transcription/streaming_wrapper.rs:53-58 | activate empties the buffer and the accumulated text and sets active |
| `StreamingWrapper.IdleIgnoresChunk` | daemon/src/transcription/streaming_wrapper.rs:60-63 | inactive or without a model, a chunk changes nothing and yields nothing |
| `StreamingWrapper.UnloadedBufferStaysEmpty` | daemon/src/transcription/streaming_wrapper.rs:211-222 | after `new(16000)` and activate, a 100-sample chunk leaves the buffer empty, not 100 long as the test expects |
| `StreamingWrapper.PartialWindowBuffers` | daemon/src/transcription/streaming_wrapper.rs:65-74 | below a window the chunk is appended and nothing is emitted |
| `StreamingWrapper.FullWindow` | daemon/src/transcription/streaming_wrapper.rs:76-91 | on a full window the buffer becomes its suffix from window - overlap; text is emitted exactly when non-empty and different from the accumulated text, which it replaces |
| `StreamingWrapper.KeepsOverlap` | daemon/src/transcription/streaming_wrapper.rs:76-83 | a window of exactly the window size keeps its last `overlap` samples |
| `StreamingWrapper.NoRepeat` | daemon/src/transcription/streaming_wrapper.rs:85-107 | a text just emitted is not emitted again by the next chunk or by finalize |
| `StreamingWrapper.EmittedIsAccumulated` | daemon/src/transcription/streaming_wrapper.rs:85-88 | an emitted text becomes the accumulated text |
| `StreamingWrapper.AccumulatedNotEmitted` | daemon/src/transcription/streaming_wrapper.rs:85-107 | the accumulated text is never emitted again |
| `StreamingWrapper.FinalizeEffect` | daemon/src/transcription/streaming_wrapper.rs:94-116 | inactive: nothing; an empty buffer is not transcribed; an error returns early and leaves it active; otherwise it deactivates and applies the non-empty/different filter; the accumulated text is kept |
| `StreamingWrapper.DeactivateEffect` | daemon/src/transcription/streaming_wrapper.rs:118-122 | deactivate clears active and the buffer but keeps the accumulated text; afterwards chunks and finalize do nothing |
| `StreamingWrapper.StreamingWrapper.constructor` | daemon/src/transcription/streaming_wrapper.rs:18-34 | the new object's fields are those of a new wrapper |
| `StreamingWrapper.StreamingWrapper.LoadModel` | daemon/src/transcription/streaming_wrapper.rs:36-51 | a successful load marks a model present |
| `StreamingWrapper.StreamingWrapper.Activate` | daemon/src/transcription/streaming_wrapper.rs:53-58 | the fields change as activation says |
| `StreamingWrapper.StreamingWrapper.TranscribeWindow` | daemon/src/transcription/streaming_wrapper.rs:128-161 | the answer is the transcription of the current buffer |
| `StreamingWrapper.StreamingWrapper.ProcessChunk` | daemon/src/transcription/streaming_wrapper.rs:60-92 | the buffer and accumulated text are updated in place as the chunk step says |
| `StreamingWrapper.StreamingWrapper.Finalize` | daemon/src/transcription/streaming_wrapper.rs:94-116 | the fields change as the finalize step says |
| `StreamingWrapper.StreamingWrapper.Deactivate` | daemon/src/transcription/streaming_wrapper.rs:118-122 | the fields change as deactivation says |
| `StreamingWrapper.StreamingWrapper.IsActive` | daemon/src/transcription/streaming_wrapper.rs:124-126 | reports the active flag |
| `MockEngine.Transcript` | daemon/src/transcription/engine.rs:32-54 | before loading: "Model not loaded"; after: phrase number (length mod 5) of the fixed list |
| `MockEngine.TranscriptCycles` | daemon/src/transcription/engine.rs:40-49 | the answer repeats every five samples and is never empty |
| `MockEngine.TranscriptDistinguishes` | daemon/src/transcription/engine.rs:40-49 | two lengths give the same phrase exactly when they agree mod 5 |
| `MockEngine.WhisperEngine.constructor` | daemon/src/transcription/engine.rs:17-22 | a new engine is not loaded |
| `MockEngine.WhisperEngine.LoadModel` | daemon/src/transcription/engine.rs:24-30 | loading always succeeds and sets the flag `is_model_loaded` reads |
| `MockEngine.WhisperEngine.Transcribe` | daemon/src/transcription/engine.rs:32-54 | answers as the transcript says and changes no field |
| `MockEngine.WhisperEngine.IsModelLoaded` | daemon/src/transcription/engine.rs:57-59 | `is_model_loaded`: false after the constructor and true after `LoadModel`, as their contracts state |
| `MockEngine.LoadThenTranscribe` | daemon/src/transcription/engine.rs:24-54 | after loading, transcription succeeds with the phrase the length selects |
| `RateLimit.NewLimiter` | daemon/src/rate_limit.rs:26-34 | a non-zero rate and burst give a valid limiter with nothing spent |
| `RateLimit.Admit` | daemon/src/rate_limit.rs:44-50 | `check` on a limiter value (`CheckEffect`, `ChecksFrom`, `BurstThenRefuse`, `DisabledAdmitsAll`) |
| `RateLimit.Await` | daemon/src/rate_limit.rs:60-67 | `acquire` on a limiter value, the clock frozen (`AcquireAlwaysTrue`, `DisabledAdmitsAll`) |
| `RateLimit.CheckEffect` | daemon/src/rate_limit.rs:44-50 | a check admits exactly when limiting is disabled or a cell is left; an admitted check spends one cell; a refused one changes nothing |
| `RateLimit.DisabledAdmitsAll` | daemon/src/rate_limit.rs:44-67 | disabled, `check` and `acquire` always answer true and change nothing |
| `RateLimit.AcquireAlwaysTrue` | daemon/src/rate_limit.rs:60-67 | `acquire` answers true whenever it returns |
| `RateLimit.ChecksFrom` | daemon/src/rate_limit.rs:44-50 | n checks in a row succeed exactly while cells are left |
| `RateLimit.BurstThenRefuse` | daemon/src/rate_limit.rs:99-110 | from a new limiter the first `burst` checks pass and every later one fails |
| `RateLimit.CommandRateLimiter.constructor` | daemon/src/rate_limit.rs:26-34 | the new object holds a new limiter |
| `RateLimit.CommandRateLimiter.Check` | daemon/src/rate_limit.rs:44-50 | consumes the limiter's state as a check does |
| `RateLimit.CommandRateLimiter.Acquire` | daemon/src/rate_limit.rs:60-67 | consumes the limiter's state as an acquire does |
| `State.NewDaemon` | daemon/src/state.rs:28-41 | inactive, not processing, every slot empty, language from the configuration, a fresh limiter |
| `State.ActivateStep` | daemon/src/state.rs:43-47 | `activate` on a daemon value (`ActivationOnlyFlag`) |
| `State.DeactivateStep` | daemon/src/state.rs:49-53 | `deactivate` on a daemon value (`ActivationOnlyFlag`) |
| `State.StatusOf` | daemon/src/state.rs:55-62 | `get_status`: the flags and the configured language (`StatusReadsConfig`) |
| `State.StartProcessingStep` | daemon/src/state.rs:64-81 | the guard and receiver take shared by both start functions (`StartProcessingEffect`, `SecondStartFails`) |
| `State.StopProcessingStep` | daemon/src/state.rs:281-298 | `stop_vad_processing` on a daemon value (`StopProcessingEffect`) |
| `State.SegmentTyped` | daemon/src/state.rs:117-190 | what one detected segment leads to: typed text only with an engine, a keyboard and a successful transcription (`FailuresTypeNothing`) |
| `State.VadRun` | daemon/src/state.rs:99-201 | the batch task's receive loop over a sequence of events (`VadRunAppend`, `LaggedSkipped`, `ClosedEnds`, and `RunVadTask`, which computes it) |
| `State.StreamChunk` | daemon/src/state.rs:235-262 | a chunk reaches the streaming engine only if one is in the slot; the slot stays filled or empty |
| `State.StreamRun` | daemon/src/state.rs:233-272 | the streaming loop keeps the slot filled or empty |
| `State.ActivationOnlyFlag` | daemon/src/state.rs:43-53 | activate and deactivate change only `is_active`, and the status shows it |
| `State.StatusReadsConfig` | daemon/src/state.rs:55-62 | the status is always running, copies `is_active` and reports the configured language whatever language was set |
| `State.StartProcessingEffect` | daemon/src/state.rs:64-207 | already processing: "Already processing audio" and no change; otherwise the receiver is taken; without one: "Audio receiver not available"; on success processing is raised and the task handle stored |
| `State.SecondStartFails` | daemon/src/state.rs:64-81 | after a successful start a second start fails, and after a stop it still fails for want of a receiver |
| `State.StopProcessingEffect` | daemon/src/state.rs:281-298 | stop lowers processing, empties the engine slot and both handles, touches nothing else, and is idempotent |
| `State.LaggedSkipped` | daemon/src/state.rs:193-266 | both loops go on after a lag report |
| `State.ClosedEnds` | daemon/src/state.rs:196-270 | both loops end at the channel's close, ignoring what would follow |
| `State.VadRunAppend` | daemon/src/state.rs:99-201 | once the channel closed, later events do not matter |
| `State.FailuresTypeNothing` | daemon/src/state.rs:117-190 | without an engine, without a keyboard, or when every transcription fails, nothing is typed |
| `State.DaemonState.constructor` | daemon/src/state.rs:28-41 | the new object's fields are those of a new daemon |
| `State.DaemonState.Activate` | daemon/src/state.rs:43-47 | raises the active flag and returns Ok |
| `State.DaemonState.Deactivate` | daemon/src/state.rs:49-53 | lowers the active flag and returns Ok |
| `State.DaemonState.GetStatus` | daemon/src/state.rs:55-62 | the status of the current fields |
| `State.DaemonState.StartVadProcessing` | daemon/src/state.rs:64-208 | guard, receiver take and task spawn, in batch mode |
| `State.DaemonState.StartStreamingProcessing` | daemon/src/state.rs:210-279 | guard, receiver take and task spawn, in streaming mode |
| `State.DaemonState.StopVadProcessing` | daemon/src/state.rs:281-298 | clears processing, the engine slot and the handles in place |
| `State.DaemonState.RunVadTask` | daemon/src/state.rs:86-204 | the batch task's loop types what the segmenter, engine and post-processing yield, and lowers processing when the channel closes |
| `State.DaemonState.TypeSegment` | daemon/src/state.rs:109-190 | a segment is typed only when transcribed with an engine and a keyboard present |
| `State.DaemonState.SendToEngine` | daemon/src/state.rs:235-262 | one chunk through the engine in the slot |
| `State.DaemonState.StreamLoop` | daemon/src/state.rs:233-272 | the streaming task's receive loop |
| `State.DaemonState.RunStreamingTask` | daemon/src/state.rs:228-275 | the streaming task updates the engine in its slot, and lowers processing when the channel closes |
| `Server.Utf8Width` | daemon/src/server.rs:230 | a character takes one to four bytes, one exactly when it is ASCII |
| `Server.LanguageCheck` | daemon/src/server.rs:228-236 | the language-code check of `handle_set_language` (`LanguageCheckIff`, `LengthCountsBytes`, `LanguageTestCodes`) |
| `Server.Utf8LenAtLeast` | daemon/src/server.rs:230 | the byte length is at least the character count, equal exactly for ASCII text |
| `Server.LanguageCheckIff` | daemon/src/server.rs:228-236 | a code passes exactly when it has 2 or 3 characters, all lowercase ASCII letters |
| `Server.TwoLetters` | daemon/src/server.rs:228-236 | two lowercase letters pass |
| `Server.TwoNonLetters` | daemon/src/server.rs:234-236 | two ASCII characters that are not both lowercase letters fail the character check |
| `Server.LanguageTestCodes` | daemon/src/server.rs:456-519 | "en", "es", "fr", "de", "jp" and "zh" pass; "a" and "abcd" fail for length; "EN" and "e1" for characters |
| `Server.LengthCountsBytes` | daemon/src/server.rs:230-236 | "é" (two bytes) fails only the character check; two CJK characters (six bytes) fail for length |
| `Server.TestCodeTooLong` | daemon/src/server.rs:230-232 | "test" fails the length check |
| `Server.EngineStageFrame` | daemon/src/server.rs:91-126 | the engine stage touches only the engine slots and never empties one |
| `Server.EngineStageFacts` | daemon/src/server.rs:91-126 | an engine already present for the mode is reused unchanged; with working hardware the stage passes; a pass leaves the engine for the mode present |
| `Server.KeyboardStageFacts` | daemon/src/server.rs:128-131 | a keyboard is created only when absent; the stage fails exactly when that creation fails |
| `Server.CaptureStageFacts` | daemon/src/server.rs:133-139 | a new capture and receiver are installed exactly when opening and starting succeed; a failure changes nothing |
| `Server.ProcessingStageFrame` | daemon/src/server.rs:143-160 | the processing stage touches only processing, the handles, the receiver and the engine |
| `Server.ProcessingStageFacts` | daemon/src/server.rs:143-160 | with an engine loaded it passes exactly when not processing and a receiver is present; a pass starts the task of the mode (and the streaming engine) |
| `Server.StartKeeps` | daemon/src/server.rs:83-89 | Start activates first: already processing gives "Already processing audio" with the daemon left active; whatever happens it ends active and keeps the configuration, language, limiter and existing engines and keyboard |
| `Server.StartCommand` | daemon/src/server.rs:83-165 | `handle_start` on a daemon value (`StartKeeps`, `StartReusesSlots`, `StartSucceeds`, `StartNeedsCapture`; `HandleStart` computes it) |
| `Server.StopCommand` | daemon/src/server.rs:169-180 | `handle_stop` on a daemon value (`StopEffect`) |
| `Server.PauseCommand` | daemon/src/server.rs:184-196 | `handle_pause` on a daemon value (`PauseEffect`) |
| `Server.ResumeCommand` | daemon/src/server.rs:200-224 | `handle_resume` on a daemon value (`ResumeOrder`, `ResumeAfterPauseFails`) |
| `Server.SetLanguageCommand` | daemon/src/server.rs:228-248 | `handle_set_language` on a daemon value (`SetLanguageEffect`) |
| `Server.Execute` | daemon/src/server.rs:250-293 | `execute_command` on a daemon value (`RateLimitedChangesNothing`, `ErrorReplyOnlyFromLimiter`, `AdmittedDispatches`, `ExecuteKeepsEngineLoaded`) |
| `Server.ExecuteKeepsEngineLoaded` | daemon/src/server.rs:83-293 | no command puts an unloaded streaming engine in the slot: `Start` installs only a loaded one, `SetLanguage` changes only its language, `Stop` and `Pause` empty the slot |
| `Server.ReachedEngineLoaded` | daemon/src/server.rs:83-293 | every daemon reached from a new one by any series of commands meets the precondition of `StartSucceeds` |
| `Server.StartReusesSlots` | daemon/src/server.rs:93-131 | with the engine and keyboard present, Start does not depend on loading or keyboard creation |
| `Server.StartSucceeds` | daemon/src/server.rs:83-165 | with working hardware and not processing, Start passes; a pass leaves the daemon active and processing with capture, keyboard, engine and the task of the mode |
| `Server.StartNeedsCapture` | daemon/src/server.rs:133-137 | Start fails when capture cannot be opened or started |
| `Server.StopEffect` | daemon/src/server.rs:169-180 | Stop passes and leaves inactive, not processing, no capture, receiver, handles or streaming engine; batch engine and keyboard kept; a second Stop changes nothing |
| `Server.PauseEffect` | daemon/src/server.rs:184-196 | inactive: "Already paused or not started" and no change; otherwise processing stops and the daemon deactivates, keeping the capture |
| `Server.ResumeOrder` | daemon/src/server.rs:200-224 | active: "Already active, cannot resume"; no capture: "Cannot resume: audio capture not running…"; then processing starts, and activation follows only its success |
| `Server.ResumeAfterPauseFails` | daemon/src/server.rs:184-224 | after a successful Start, Pause passes but Resume fails with "Audio receiver not available" |
| `Server.SetLanguageEffect` | daemon/src/server.rs:228-248 | accepted exactly for 2-3 lowercase letters; a refusal changes nothing; an accepted code is stored and pushed into a loaded streaming engine, and nothing else changes |
| `Server.StatusIgnoresSetLanguage` | daemon/src/server.rs:274-277 | the status after SetLanguage is the status before it |
| `Server.RateLimitedChangesNothing` | daemon/src/server.rs:256-267 | a refused command of any kind answers the rate-limit error and changes nothing |
| `Server.ErrorReplyOnlyFromLimiter` | daemon/src/server.rs:250-293 | an `Error` reply comes exactly from a rate-limit refusal, with its message |
| `Server.TestCommandFails` | daemon/src/server.rs:228-267 | `SetLanguage("test")` never passes: admitted it fails for length, refused it is the rate-limit error; at most a cell is spent |
| `Server.AdmittedDispatches` | daemon/src/server.rs:269-292 | an admitted command spends a cell and runs its handler; the reply is Ok exactly when the handler passes |
| `Server.ToggleDispatch` | daemon/src/server.rs:279-289 | Toggle runs Stop when active and Start otherwise |
| `Server.StatusAnswersBurst` | daemon/src/server.rs:546-595 | n Status commands in a row are answered with the status while cells are left and with the rate-limit error afterwards |
| `Server.BurstOfFive` | daemon/src/server.rs:562-579 | with a burst of five, five Status commands are answered and the next two are refused |
| `Server.PrepareEngine` | daemon/src/server.rs:91-126 | in place, as the engine stage says |
| `Server.PrepareKeyboard` | daemon/src/server.rs:128-131 | in place, as the keyboard stage says |
| `Server.OpenCapture` | daemon/src/server.rs:133-139 | in place, as the capture stage says |
| `Server.StartProcessing` | daemon/src/server.rs:143-160 | in place, as the processing stage says |
| `Server.HandleStart` | daemon/src/server.rs:83-165 | the stages run in order on the daemon's fields, stopping at the first failure |
| `Server.HandleStop` | daemon/src/server.rs:169-180 | in place, as Stop says |
| `Server.HandlePause` | daemon/src/server.rs:184-196 | in place, as Pause says |
| `Server.HandleResume` | daemon/src/server.rs:200-224 | in place, as Resume says |
| `Server.HandleSetLanguage` | daemon/src/server.rs:228-248 | in place, as SetLanguage says |
| `Server.ExecuteCommand` | daemon/src/server.rs:250-293 | the rate check, then the handler of the command, in place |
| `Ipc.Message` | shared/src/ipc.rs:29-42 | every error has a non-empty display text |
| `Ipc.EncodeCommand` | shared/src/ipc.rs:4-13 | serde_json's writing of a command: unit variants as their quoted names, `SetLanguage` as a one-field object (`UnitCommandTexts`, `SetLanguageText`, `CommandRoundTrip`) |
| `Ipc.DecodeCommand` | shared/src/ipc.rs:4-13 | serde_json's reading of a command; the inverse of `EncodeCommand` (`CommandRoundTrip`) |
| `Ipc.EncodeResponse` | shared/src/ipc.rs:15-20 | serde_json's writing of a response (`OkText`, `ErrorText`, `StatusText`, `ResponseRoundTrip`) |
| `Ipc.DecodeResponse` | shared/src/ipc.rs:15-20 | serde_json's reading of a response; the inverse of `EncodeResponse` (`ResponseRoundTrip`) |
| `Ipc.EncodeStatusInfo` | shared/src/ipc.rs:22-27 | serde_json's writing of a status object, fields in declaration order (`StatusInfoRoundTrip`) |
| `Ipc.DecodeStatusInfo` | shared/src/ipc.rs:22-27 | serde_json's reading of a status object; the inverse of `EncodeStatusInfo` (`StatusInfoRoundTrip`) |
| `Ipc.MessagesDistinct` | shared/src/ipc.rs:29-42 | different errors display differently; IO and serialization errors start with "IO error: " and "Serialization error: " |
| `Ipc.EscapeRead` | shared/src/ipc.rs:63-79 | reading an escaped character gives it back (section 7 of RFC 8259) |
| `Ipc.StringRoundTrip` | shared/src/ipc.rs:63-79 | reading a written JSON string gives the string and the rest back |
| `Ipc.BoolRoundTrip` | shared/src/ipc.rs:22-27 | reading a written boolean gives it back |
| `Ipc.StatusInfoRead` | shared/src/ipc.rs:22-27 | reading a written status object, fields in declaration order, gives it back |
| `Ipc.CommandRead` | shared/src/ipc.rs:4-13 | reading a written command gives it back |
| `Ipc.ResponseRead` | shared/src/ipc.rs:15-20 | reading a written response gives it back |
| `Ipc.CommandRoundTrip` | shared/src/ipc.rs:63-79 | decoding an encoded command gives the command |
| `Ipc.ResponseRoundTrip` | shared/src/ipc.rs:110-126 | decoding an encoded response gives the response |
| `Ipc.StatusInfoRoundTrip` | shared/src/ipc.rs:141-159 | decoding an encoded status gives the status |
| `Ipc.PlainEscaped` | shared/src/ipc.rs:49-108 | text without characters to escape is written as it is |
| `Ipc.UnitCommandTexts` | shared/src/ipc.rs:49-54 | unit commands are their quoted names: `"Start"` and so on |
| `Ipc.OkText` | shared/src/ipc.rs:81-86 | `Ok` is `"Ok"` |
| `Ipc.SetLanguageText` | shared/src/ipc.rs:56-61 | `SetLanguage("en")` is `{"SetLanguage":"en"}` |
| `Ipc.ErrorText` | shared/src/ipc.rs:88-93 | `Error("test error")` is `{"Error":"test error"}` |
| `Ipc.StatusText` | shared/src/ipc.rs:95-108 | the status response is `{"Status":{"is_running":true,"is_active":false,"language":"en"}}` |
| `Cli.ToCommand` | cli/src/main.rs:32-40 | only `test` sends `SetLanguage`, and it sends "test" |
| `Cli.ToCommandNames` | cli/src/main.rs:32-40 | every other subcommand sends the command of its name, and different subcommands send different commands |
| `Cli.Report` | cli/src/main.rs:42-60 | exit 0 exactly for an `Ok` or `Status` reply, with output on stdout only; otherwise exit 1 with one line on stderr |
| `Cli.StatusLines` | cli/src/main.rs:46-51 | a status prints four lines: the header, running, active and the language |
| `Session.EmptyReplyFails` | cli/src/client.rs:69-73 | an empty reply is the serialization error for end of input |
| `Session.Serve` | daemon/src/server.rs:295-340 | the daemon's side of one connection: decode, execute, and reply only on success (`RunIsExecute`, `HandlerFailureLooksLikeNoDaemon`) |
| `Session.Run` | cli/src/client.rs:32-74 | one run of `ndict <sub>` through the socket (`RunIsExecute`, `ExitStatus`, `TestAlwaysFails`, `StatusReported`) |
| `Session.RunIsExecute` | daemon/src/server.rs:295-340 | the wire is transparent: the daemon executes exactly the subcommand's command; the command line sees its response, or an empty reply when the command failed |
| `Session.ExitStatus` | cli/src/main.rs:42-60 | `ndict` exits 0 exactly when the command was admitted and its handler passed; otherwise with 1 |
| `Session.HandlerFailureLooksLikeNoDaemon` | daemon/src/server.rs:328-340 | a failing handler is reported as a failure to decode an empty reply |
| `Session.TestAlwaysFails` | cli/src/main.rs:38 | `ndict test` always exits with status 1 and at most spends a rate-limit cell |
| `Session.StatusReported` | cli/src/main.rs:46-51 | an admitted `ndict status` prints the status the daemon had and changes only the limiter |

## Left out

- Sockets and I/O: binding, permissions, accept, the read and write timeouts, the `Drop` that removes the socket, and the socket path. One `ndict` run is modelled as an exchange that always connects and delivers whole messages. The daemon's and the client's single 1024-byte reads, which would cut a longer message, are not modelled.
- `ConnectionRefused` and `Timeout` are modelled only as error values and their messages. The conditions that raise them are I/O.
- Concurrency: each command runs under the daemon's outer lock and is atomic here. The processing tasks run to the end of their event sequence. Task abort, the per-segment transcription and typing tasks with their 30 s and 5 s timeouts, and the Toggle read-then-act race are not modelled.
- The clock: the speech segmenter takes the time as an argument. The rate limiter never refills, because the clock is frozen as in the tests; governor's refill over time is not modelled.
- The voice-activity detector in `daemon/src/vad/detector.rs` (level computation and thresholds) is not part of this model. Its signatures do not match the calls in `speech_detector.rs`, so the speech/non-speech verdict of a chunk is an input.
- Whisper inference in `process_window` and `transcribe_window`, and the batch engine's `transcribe` in the daemon, are oracle functions that return text or fail. Loading a model, finding or downloading it, creating the keyboard, and opening or starting audio capture are outcomes given by a `Server.Environment`.
- Typing: the keyboard's `type_text` is not modelled. The model records the texts handed to it.
- Logging and the sleeps of the mock engine.
- `daemon/src/config.rs` (TOML loading) is not part of this model. The configuration is the parameter `State.Config`.
- `daemon/src/trans/` is not part of this model. It is not compiled into the daemon.
- Samples are `real`: the rounding of `f32` arithmetic in the gain is not modelled.
- JSON decoding accepts the layout serde_json writes, plus the insignificant whitespace of section 2 of RFC 8259. Fields out of order, unknown fields, the array form of structs, the map form of unit variants (`{"Start":null}`, `{"Ok":null}`, which serde_json also accepts) and surrogate-pair escapes are not accepted. The only serde_json error text modelled is the one for empty input; other decode failures carry a caller-given text.
- `StreamingEngine.SendStep`, `StreamingEngine.StreamingEngine.SendAudio`: require keep ≤ length. Otherwise the source's `usize` subtraction at `streaming_engine.rs:96` panics in a debug build; in a release build it wraps to a huge skip count and the buffer is emptied. Neither behaviour is modelled.

## Findings

| source | as written | input that shows it | evidently intended | confidence | as-written member | corrected member |
|---|---|---|---|---|---|---|
| daemon/src/vad/speech_detector.rs:127 | `sample_count as u32 * 1000` truncates and multiplies in 32 bits, so the product wraps (in a release build) | a segment of 4294968 samples (about 268 s at 16 kHz) is reported as 0 ms | the segment's length in milliseconds, 268435 | not executed | `SpeechSegmenter.DurationMsAsWritten` (with `SpeechSegmenter.DurationWraps`) | `SpeechSegmenter.DurationMs` (with `SpeechSegmenter.DurationAgreesBelowWrap`) |

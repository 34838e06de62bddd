/** The mock `WhisperEngine` of `daemon/src/transcription/engine.rs`: a flag
    that loading sets, and a transcription that picks one of five fixed phrases
    by the number of samples. The sleeps inside it are left out. */
module MockEngine {
  import opened Common

  /** The phrases the mock answers with, in order. */
  const Phrases: seq<string> := [
    "hello world",
    "this is a test",
    "the quick brown fox",
    "speech to text",
    "whisper transcription working"
  ]

  /** What `transcribe` answers for `n` samples, given whether the model is
      loaded. */
  function Transcript(loaded: bool, n: nat): (r: Result<string>)
    ensures !loaded <==> r == Err("Model not loaded")
    ensures r.Ok? ==> r.value in Phrases && r.value == Phrases[n % 5]
  {
    if !loaded then Err("Model not loaded") else Ok(Phrases[n % |Phrases|])
  }

  /** The answer depends on the sample count only through its remainder by
      five, and it is never empty. */
  lemma TranscriptCycles(n: nat)
    ensures Transcript(true, n) == Transcript(true, n + 5)
    ensures Transcript(true, n).Ok? && |Transcript(true, n).value| > 0
  {
  }

  /** The five phrases are distinct, so the remainder by five can be read back
      from the answer. */
  lemma TranscriptDistinguishes(m: nat, n: nat)
    ensures Transcript(true, m) == Transcript(true, n) <==> m % 5 == n % 5
  {
  }

  class WhisperEngine {
    var modelLoaded: bool

    /** `WhisperEngine::new`: not loaded. */
    constructor ()
      ensures !modelLoaded
    {
      modelLoaded := false;
    }

    /** `load_model`: always succeeds. */
    method LoadModel() returns (r: Outcome)
      modifies this
      ensures modelLoaded && r == Pass
    {
      modelLoaded := true;
      r := Pass;
    }

    /** `transcribe`: fails before loading, and never changes the flag. */
    method Transcribe(audio: seq<real>) returns (r: Result<string>)
      ensures r == Transcript(modelLoaded, |audio|)
    {
      if !modelLoaded {
        return Err("Model not loaded");
      }
      r := Ok(Phrases[|audio| % |Phrases|]);
    }

    /** `is_model_loaded`. */
    function IsModelLoaded(): bool
      reads this
    {
      modelLoaded
    }
  }

  /** Loading then transcribing succeeds, with the phrase the sample count
      selects. */
  method LoadThenTranscribe(audio: seq<real>) returns (r: Result<string>)
    ensures r == Ok(Phrases[|audio| % 5])
  {
    var e := new WhisperEngine();
    var loaded := e.LoadModel();
    r := e.Transcribe(audio);
  }
}

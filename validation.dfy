/** The input gate at the front of `TextToSpeechClient.TextToSpeech`:
    the two fixed allow-lists, the linear membership scan, and the three
    checks run in the order text, model, voice. */
module Validation {
  import opened GoText

  /** `allowedVoices`: the six voices the client accepts. */
  const ALLOWED_VOICES: seq<GoString> :=
    [Ascii("alloy"), Ascii("echo"), Ascii("fable"), Ascii("onyx"), Ascii("nova"), Ascii("shimmer")]

  /** `allowedModels`: the two models the client accepts. */
  const ALLOWED_MODELS: seq<GoString> := [Ascii("tts1"), Ascii("tts1hd")]

  /** The `Input` record: the model, the voice and the text to synthesise. */
  datatype Input = Input(model: GoString, voice: GoString, text: GoString)

  datatype Option<T> = None | Some(value: T)

  /** The kind of `CustomError` a failed check returns (the message text is not modelled). */
  datatype ValidationError = EmptyText | InvalidModel | InvalidVoice

  /** The request invariant the gate enforces: non-empty text, an allowed model, an allowed voice. */
  predicate WellFormed(input: Input) {
    |input.text| > 0 && input.model in ALLOWED_MODELS && input.voice in ALLOWED_VOICES
  }

  /** The condition under which the check that reports `e` fails. */
  predicate Rejects(input: Input, e: ValidationError) {
    match e
    case EmptyText => |input.text| == 0
    case InvalidModel => input.model !in ALLOWED_MODELS
    case InvalidVoice => input.voice !in ALLOWED_VOICES
  }

  /** Position of the check reporting `e` in the guard chain. */
  function Rank(e: ValidationError): nat {
    match e
    case EmptyText => 0
    case InvalidModel => 1
    case InvalidVoice => 2
  }

  /** The guard chain: `None` when the request may proceed, otherwise the error of
      the first check that fails. */
  function Validate(input: Input): (r: Option<ValidationError>)
    ensures r.None? <==> WellFormed(input)
    ensures r.None? ==> forall e :: !Rejects(input, e)
    ensures r.Some? ==> Rejects(input, r.value)
    ensures r.Some? ==> forall e :: Rank(e) < Rank(r.value) ==> !Rejects(input, e)
  {
    if input.text == [] then Some(EmptyText)
    else if input.model !in ALLOWED_MODELS then Some(InvalidModel)
    else if input.voice !in ALLOWED_VOICES then Some(InvalidVoice)
    else None
  }

  /** `isValidateInput`: scans `allowed` front to back and answers true at the
      first element equal to `input`, false when the list runs out. */
  method IsAllowed(input: GoString, allowed: seq<GoString>) returns (ok: bool)
    ensures ok <==> input in allowed
    ensures allowed == [] ==> !ok
  {
    for i := 0 to |allowed|
      invariant input !in allowed[..i]
    {
      if allowed[i] == input {
        return true;
      }
    }
    assert allowed[..|allowed|] == allowed;
    return false;
  }

  /** The three early returns of `TextToSpeech`, as the source runs them: each
      check calls the scan and the first failure ends the chain. */
  method CheckInput(input: Input) returns (r: Option<ValidationError>)
    ensures r == Validate(input)
  {
    if input.text == [] {
      return Some(EmptyText);
    }
    var modelOk := IsAllowed(input.model, ALLOWED_MODELS);
    if !modelOk {
      return Some(InvalidModel);
    }
    var voiceOk := IsAllowed(input.voice, ALLOWED_VOICES);
    if !voiceOk {
      return Some(InvalidVoice);
    }
    return None;
  }

  /** Empty text is reported whatever the model and the voice are. */
  lemma EmptyTextFirst(model: GoString, voice: GoString)
    ensures Validate(Input(model, voice, [])) == Some(EmptyText)
  {
  }

  /** With non-empty text, a disallowed model is reported even when the voice is
      disallowed too. */
  lemma ModelBeforeVoice(input: Input)
    requires |input.text| > 0 && input.model !in ALLOWED_MODELS
    ensures Validate(input) == Some(InvalidModel)
  {
  }

  /** The voice error arises only once the text is non-empty and the model allowed,
      and then exactly when the voice is not allowed. */
  lemma InvalidVoiceOnlyLast(input: Input)
    ensures Validate(input) == Some(InvalidVoice) <==>
      |input.text| > 0 && input.model in ALLOWED_MODELS && input.voice !in ALLOWED_VOICES
  {
  }

  /** The scan compares bytes exactly, with no normalisation of case or
      punctuation: the hyphenated spelling "tts-1", one byte away from the listed
      "tts1", is rejected as a model, while "tts1" itself passes. */
  lemma HyphenatedModelRejected(voice: GoString, text: GoString)
    requires |text| > 0
    ensures Validate(Input(Ascii("tts-1"), voice, text)) == Some(InvalidModel)
    ensures voice in ALLOWED_VOICES ==> Validate(Input(Ascii("tts1"), voice, text)) == None
  {
  }
}

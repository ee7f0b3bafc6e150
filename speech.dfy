/** `TextToSpeechClient.TextToSpeech` from the caller's point of view: the
    validation gate, then the external steps (JSON encoding, building and sending
    the request, creating the output file, copying bytes into it) whose results
    are supplied by an environment, and the `text[:30]` slice that names the file. */
module Speech {
  import opened GoText
  import opened Validation

  /** Bytes of the text used as the output file name. */
  const NAME_LENGTH: nat := 30

  /** `input.text[:30]` on a Go string: the first 30 bytes, or a run-time panic
      ("slice bounds out of range") when the text is shorter. */
  datatype Slice = OutOfRange | Name(bytes: GoString)

  function SliceName(text: GoString): (r: Slice)
    ensures r.Name? <==> |text| >= NAME_LENGTH
    ensures r.Name? ==> |r.bytes| == NAME_LENGTH && r.bytes <= text
  {
    if |text| < NAME_LENGTH then OutOfRange else Name(text[..NAME_LENGTH])
  }

  /** Whether each external call succeeds: `json.Marshal`, `http.NewRequest`,
      `Client.Do`, `os.Create` and `io.Copy`. */
  datatype Env = Env(marshalOk: bool, buildOk: bool, sendOk: bool, createOk: bool, copyOk: bool)

  /** The externally visible steps, in the order the source performs them.
      `CreateFile` carries the directory and the name, which `path.Join` combines. */
  datatype Effect = Marshal | BuildRequest | Send | CreateFile(dir: GoString, name: GoString) | CopyBody

  /** How a call ends: one of the returned errors, the slice panic, or a written file. */
  datatype Outcome =
    | Invalid(reason: ValidationError)
    | MarshalFailed
    | BuildFailed
    | TransportFailed
    | SliceOutOfRange
    | CreateFailed
    | CopyFailed
    | Written(name: GoString)

  datatype Run = Run(outcome: Outcome, effects: seq<Effect>)

  /** The externally visible steps of a call that is never cut short. */
  function FullTrace(dir: GoString, name: GoString): seq<Effect> {
    [Marshal, BuildRequest, Send, CreateFile(dir, name), CopyBody]
  }

  /** The steps after validation, given the result of naming the file. */
  function Steps(dir: GoString, env: Env, naming: Slice): (r: Run)
    ensures r.outcome !in {MarshalFailed, BuildFailed, TransportFailed} ==>
      |r.effects| >= 3 && r.effects[..3] == [Marshal, BuildRequest, Send]
  {
    var sent := [Marshal, BuildRequest, Send];
    if !env.marshalOk then Run(MarshalFailed, [Marshal])
    else if !env.buildOk then Run(BuildFailed, [Marshal, BuildRequest])
    else if !env.sendOk then Run(TransportFailed, sent)
    else match naming
      case OutOfRange => Run(SliceOutOfRange, sent)
      case Name(name) =>
        if !env.createOk then Run(CreateFailed, sent + [CreateFile(dir, name)])
        else if !env.copyOk then Run(CopyFailed, FullTrace(dir, name))
        else Run(Written(name), FullTrace(dir, name))
  }

  /** `TextToSpeech(input, dir)` as written: a failed check returns before any
      external step; a valid request is encoded, built and sent, and only then is
      the file named by slicing the first 30 bytes of the text. */
  function Synthesize(input: Input, dir: GoString, env: Env): (r: Run)
    ensures r.outcome.Invalid? <==> !WellFormed(input)
    ensures r.outcome.Invalid? ==> r.outcome.reason == Validate(input).value && r.effects == []
    ensures Send in r.effects ==> WellFormed(input)
    ensures r.outcome == SliceOutOfRange <==>
      WellFormed(input) && env.marshalOk && env.buildOk && env.sendOk && |input.text| < NAME_LENGTH
    ensures r.outcome.Written? <==>
      WellFormed(input) && env == Env(true, true, true, true, true) && |input.text| >= NAME_LENGTH
    ensures r.outcome.Written? ==> |r.outcome.name| == NAME_LENGTH && r.outcome.name <= input.text
    ensures forall d, n :: CreateFile(d, n) in r.effects ==>
      |input.text| >= NAME_LENGTH && d == dir && n == input.text[..NAME_LENGTH]
    // Each external error is returned at once, by the first step that fails.
    ensures r.outcome == MarshalFailed <==> WellFormed(input) && !env.marshalOk
    ensures r.outcome == BuildFailed <==> WellFormed(input) && env.marshalOk && !env.buildOk
    ensures r.outcome == TransportFailed <==>
      WellFormed(input) && env.marshalOk && env.buildOk && !env.sendOk
    ensures r.outcome == CreateFailed <==>
      WellFormed(input) && env.marshalOk && env.buildOk && env.sendOk && |input.text| >= NAME_LENGTH
      && !env.createOk
    ensures r.outcome == CopyFailed <==>
      WellFormed(input) && env.marshalOk && env.buildOk && env.sendOk && |input.text| >= NAME_LENGTH
      && env.createOk && !env.copyOk
    // Nothing after a returned error or the panic runs.
    ensures r.outcome in {MarshalFailed, BuildFailed, TransportFailed, SliceOutOfRange} ==>
      forall e :: e in r.effects ==> !e.CreateFile? && e != CopyBody
    ensures r.outcome in {MarshalFailed, BuildFailed} ==> Send !in r.effects
    ensures CopyBody in r.effects <==> r.outcome == CopyFailed || r.outcome.Written?
  {
    match Validate(input)
    case Some(e) => Run(Invalid(e), [])
    case None => Steps(dir, env, SliceName(input.text))
  }

  /** With a text of 30 bytes or more, whatever the external calls return, the
      steps taken are a prefix of the full sequence in source order, so the file is
      never created unless the request was sent. Shorter texts are covered by
      `ShortTextNeverCreatesFile`. */
  lemma EffectsInSourceOrder(input: Input, dir: GoString, env: Env)
    requires |input.text| >= NAME_LENGTH
    ensures Synthesize(input, dir, env).effects <= FullTrace(dir, input.text[..NAME_LENGTH])
  {
  }

  /** With a text shorter than 30 bytes no run creates or writes a file: at most
      the request is encoded, built and sent. */
  lemma ShortTextNeverCreatesFile(input: Input, dir: GoString, env: Env)
    requires |input.text| < NAME_LENGTH
    ensures Synthesize(input, dir, env).effects <= [Marshal, BuildRequest, Send]
    ensures !Synthesize(input, dir, env).outcome.Written?
  {
  }

  /** Two requests whose texts share the first 30 bytes name the same file. */
  lemma SharedPrefixSameFile(a: Input, b: Input, dir: GoString, env: Env)
    requires Synthesize(a, dir, env).outcome.Written? && Synthesize(b, dir, env).outcome.Written?
    requires a.text[..NAME_LENGTH] == b.text[..NAME_LENGTH]
    ensures Synthesize(a, dir, env).outcome.name == Synthesize(b, dir, env).outcome.name
  {
  }

  // ---------------------------------------------------------------------------
  // The short-text panic and the intended behaviour.

  /** The valid request "hello world" (11 bytes) is sent, and the call then panics
      on the slice instead of writing a file named "hello world". */
  lemma HelloWorldPanicsAfterSend(dir: GoString)
    ensures Synthesize(Input(Ascii("tts1"), Ascii("alloy"), Ascii("hello world")),
                       dir, Env(true, true, true, true, true))
            == Run(SliceOutOfRange, [Marshal, BuildRequest, Send])
  {
  }

  /** The file name clamped to the text: at most 30 bytes, never out of range. */
  function ClampedName(text: GoString): (r: GoString)
    ensures r <= text
    ensures |r| == if |text| < NAME_LENGTH then |text| else NAME_LENGTH
  {
    if |text| < NAME_LENGTH then text else text[..NAME_LENGTH]
  }

  /** `TextToSpeech` with the name taken as the first min(30, len(text)) bytes. */
  function SynthesizeClamped(input: Input, dir: GoString, env: Env): (r: Run)
    ensures r.outcome != SliceOutOfRange
    ensures r.outcome.Invalid? <==> !WellFormed(input)
    ensures r.outcome.Written? <==> WellFormed(input) && env == Env(true, true, true, true, true)
    ensures r.outcome.Written? && |input.text| <= NAME_LENGTH ==> r.outcome.name == input.text
    ensures r.outcome.Invalid? ==> r.outcome.reason == Validate(input).value && r.effects == []
  {
    match Validate(input)
    case Some(e) => Run(Invalid(e), [])
    case None => Steps(dir, env, Name(ClampedName(input.text)))
  }

  /** The clamped version changes nothing for texts of 30 bytes or more. */
  lemma ClampedAgreesOnLongText(input: Input, dir: GoString, env: Env)
    requires |input.text| >= NAME_LENGTH
    ensures SynthesizeClamped(input, dir, env) == Synthesize(input, dir, env)
  {
  }

  /** The clamp changes only the calls that panic as written: every other call is
      the same, and a call that panicked instead continues after the send with the
      whole text as the file name. */
  lemma ClampedDiffersOnlyOnPanic(input: Input, dir: GoString, env: Env)
    ensures Synthesize(input, dir, env).outcome != SliceOutOfRange ==>
      SynthesizeClamped(input, dir, env) == Synthesize(input, dir, env)
    ensures Synthesize(input, dir, env).outcome == SliceOutOfRange ==>
      SynthesizeClamped(input, dir, env) == Steps(dir, env, Name(input.text))
  {
  }

  /** With the clamped name, "hello world" is written to a file named "hello world". */
  lemma HelloWorldWrittenWhenClamped(dir: GoString)
    ensures SynthesizeClamped(Input(Ascii("tts1"), Ascii("alloy"), Ascii("hello world")),
                              dir, Env(true, true, true, true, true)).outcome
            == Written(Ascii("hello world"))
  {
  }
}

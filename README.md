# Text-to-speech client: input gate and output file name

This project models the logic of the Go package `texttospeechopenai` that does
not depend on the network or the filesystem. That package's
`TextToSpeechClient.TextToSpeech(input, filePath)` sends a model, a voice and a
text to a speech-synthesis HTTP endpoint and writes the result to a file. The
model covers the following:

- the two fixed allow-lists, `allowedModels` = {"tts1", "tts1hd"} and
  `allowedVoices` = {"alloy", "echo", "fable", "onyx", "nova", "shimmer"};
- `isValidateInput`, the linear membership scan. It is a Dafny method with a
  loop, proved to answer exactly `input in allowed`;
- the guard chain at the top of `TextToSpeech`. It checks for empty text, then
  for a disallowed model, then for a disallowed voice, and the first check that
  fails decides the error. It is a pure function, `Validation.Validate`, plus a
  method, `Validation.CheckInput`, that runs the checks the way the source does
  and is proved equal to that function;
- the output file name `input.text[:30]`. This is a Go byte slice that panics
  when the text is shorter than 30 bytes, and the model keeps that outcome as
  `SliceOutOfRange`;
- the order of the call's external steps. These are JSON encoding,
  `http.NewRequest`, `Client.Do`, `os.Create` and `io.Copy`. Whether each one
  succeeds is a parameter (`Speech.Env`), and each run records which steps it
  reached (`Speech.Effect`).

Go strings are byte sequences (`GoText.GoString = seq<byte>`), so equality
compares bytes and the slice length counts bytes. The literal lists are built
from ASCII strings by `GoText.Ascii`.

Two facts about the source shape the model:

- Line 94 slices `input.text[:30]` without checking the length first, so a text
  shorter than 30 bytes makes the call panic, and `Speech.Synthesize` models
  that panic. `Speech.SynthesizeClamped` models the clamped alternative, which
  takes the first min(30, len(text)) bytes; see "## Findings".
- The fields of `Input` are unexported (lines 26-28), so `json.Marshal` emits
  `{}`, and the model contains no serialiser.

## Model

| member | source | states |
|---|---|---|
| `Validation.IsAllowed` | gotexttospeechopenai.go:50-58 | the scan answers true exactly when `input` equals some element of `allowed`; on an empty list it answers false |
| `Validation.Validate` | gotexttospeechopenai.go:62-72 | the request passes exactly when the text is non-empty, the model is in `allowedModels` and the voice is in `allowedVoices`; a reported error is a check that fails, and every check ranked before it passes (order: text, model, voice) |
| `Validation.CheckInput` | gotexttospeechopenai.go:62-72 | the three early returns, each calling the scan, give exactly the error (or none) that `Validate` specifies |
| `Validation.EmptyTextFirst` | gotexttospeechopenai.go:62-64 | empty text yields the empty-text error whatever the model and the voice are |
| `Validation.ModelBeforeVoice` | gotexttospeechopenai.go:66-72 | with non-empty text, a disallowed model yields the invalid-model error even when the voice is also disallowed |
| `Validation.InvalidVoiceOnlyLast` | gotexttospeechopenai.go:70-72 | the invalid-voice error occurs iff the text is non-empty, the model is allowed and the voice is not |
| `Validation.HyphenatedModelRejected` | gotexttospeechopenai.go:19 | models are compared byte for byte with no normalisation: "tts-1", one byte away from the listed "tts1", is rejected, while "tts1" passes with any allowed voice and non-empty text |
| `Speech.SliceName` | gotexttospeechopenai.go:94 | the slice yields a name iff the text has at least 30 bytes, and that name is the 30-byte prefix of the text; otherwise it is out of range |
| `Speech.Synthesize` | gotexttospeechopenai.go:60-106 | a call fails validation iff the request is not well formed, and it then reports `Validate`'s error with no external step taken; a send happens only for a well-formed request; each external error (encode, build, send, create, copy) is the outcome exactly when every earlier step succeeded and that step failed, and no later step runs: after an encode, build or send error, or the slice panic, no file is created or copied into; the slice panic occurs iff a well-formed request with a text under 30 bytes was encoded, built and sent; a file is written iff the request is well formed, every external step succeeds and the text has 30 bytes or more; every create step is given the directory argument and, as the name, the first 30 bytes of the text (the tail after validation is carried by `Speech.Steps`); `path.Join`, which is not modelled, can place the file outside that directory when the name contains '/' or '..' |
| `Speech.Steps` | gotexttospeechopenai.go:74-104 | after validation, every run that gets past encoding, building and sending has taken exactly those three steps first, in that order |
| `Speech.EffectsInSourceOrder` | gotexttospeechopenai.go:74-101 | for a text of at least 30 bytes (the lemma requires it) and any results of the external calls, the steps taken are a prefix of encode, build, send, create file, copy; shorter texts are covered by `ShortTextNeverCreatesFile` |
| `Speech.ShortTextNeverCreatesFile` | gotexttospeechopenai.go:87-94 | with a text under 30 bytes, no file is created or written; at most encode, build and send happen |
| `Speech.SharedPrefixSameFile` | gotexttospeechopenai.go:94 | two written requests whose texts share their first 30 bytes name the same file |
| `Speech.HelloWorldPanicsAfterSend` | gotexttospeechopenai.go:94 | the valid request ("tts1", "alloy", "hello world") is sent and then panics on the slice |
| `Speech.ClampedName` | gotexttospeechopenai.go:94 | the corrected name is a prefix of the text of length min(30, len(text)) |
| `Speech.SynthesizeClamped` | gotexttospeechopenai.go:94 | with the clamped name, no call panics; a rejected request reports `Validate`'s error with no external step taken; a well-formed request with every step succeeding is always written; a text of at most 30 bytes names its file by itself |
| `Speech.ClampedAgreesOnLongText` | gotexttospeechopenai.go:94 | for texts of 30 bytes or more, the corrected call behaves exactly like the call as written |
| `Speech.ClampedDiffersOnlyOnPanic` | gotexttospeechopenai.go:94 | for all inputs, the clamped call equals the call as written unless the latter panics on the slice; a call that panicked instead continues after the send with the whole text as the name |
| `Speech.HelloWorldWrittenWhenClamped` | gotexttospeechopenai.go:94 | with the clamped name, "hello world" is written to a file named "hello world" |

## Left out

- Building the HTTP request, its headers and `Client.Do` (gotexttospeechopenai.go:79-92) are network I/O. The model keeps only whether they succeed (`Env.buildOk`, `Env.sendOk`) and the fact that they ran.
- `os.Create`, `io.Copy` and the deferred closes (gotexttospeechopenai.go:92-104) are filesystem I/O. The model does not represent the bytes copied. The copy reads from the request body instead of the response body, and this is not modelled either.
- `json.Marshal` (gotexttospeechopenai.go:74) is a library call. Only its success or failure is a parameter (`Env.marshalOk`).
- The `MarshalFailed` outcome over-approximates the source: marshalling a struct whose fields are all unexported strings always gives `{}` and no error, so `Env.marshalOk == false` does not happen.
- The `BuildFailed` outcome over-approximates the source: `http.NewRequest` with the constant URL of line 15 does not fail, so `Env.buildOk == false` does not happen.
- The `CopyFailed` outcome over-approximates the source: line 101 copies from `req.Body`, which `Client.Do` has already consumed, so `io.Copy` copies nothing and returns no error, and `Env.copyOk == false` does not happen.
- `path.Join` (gotexttospeechopenai.go:94) is opaque. The create step carries the directory and the name separately, and path cleaning is not modelled. The name is not sanitised, so a name containing '/' or '..' can put the file in a subdirectory or outside the given directory; the model does not say where the file lands.
- The error messages built with `fmt.Sprintf` (gotexttospeechopenai.go:63, 67, 71) are not modelled. Only the kind of error is.
- `NewTextToSpeechClient` and `CustomError.Error` (gotexttospeechopenai.go:40-48) are trivial wrappers with nothing to state.
- A Go panic is an outcome of the call (`SliceOutOfRange`). The deferred `resp.Body.Close()` that runs during the panic is not modelled.

## Findings

| source | as written | input that shows it | evidently intended | confidence | as-written member | corrected member |
|---|---|---|---|---|---|---|
| gotexttospeechopenai.go:94 | `input.text[:30]` slices without a length guard, so a valid text shorter than 30 bytes panics after the request has been sent | model "tts1", voice "alloy", text "hello world", every external step succeeding | the file is named by the first min(30, len(text)) bytes, so "hello world" is written to a file of that name | high; not executed | `Speech.HelloWorldPanicsAfterSend` | `Speech.SynthesizeClamped` |

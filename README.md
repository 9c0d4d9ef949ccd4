# Voiz dictation core in Dafny

Voiz is a push-to-toggle dictation tool: Ctrl+Space starts microphone
capture, a second press stops it, the audio is sent to a transcription
service in a background thread, and the text lands on the clipboard. This
project models the two stateful pieces of that flow and proves what they
promise.

- `recorder.dfy`, module `AudioCapture`: the `Recorder` class of
  `recorder.py` — its chunk buffer `frames` (int16 samples), the presence
  of a stream, and the `recording` flag; `Start`, `Stop`, the stream
  callback `AudioCallback`, and lemmas that `Stop` returns the chunks
  joined in arrival order with no sample lost or duplicated.
- `status.dfy`, module `StatusMachine`: the Idle / Recording / Processing
  cycle as a step function over events (a hotkey press that got the lock,
  the worker finishing), the 5000-byte minimum, and lemmas over whole runs:
  only the four legal transitions occur, Processing is entered only from
  Recording with enough audio, presses never leave Processing.
- `messages.dfy`, module `Messages`: the 80-character notification
  preview and the classification of transcription error messages
  (substring search for "auth" / "api key" in the lower-cased message).
- `app_state.dfy`, module `App`: the `AppState` class of `main.py` —
  status, the recorder it owns, the toggle lock as a flag, the notification
  log, the clipboard (a ghost log of copied texts) and the audio held by the
  in-flight worker. `Toggle` / `ToggleInner` are `toggle_recording` /
  `_toggle_recording_inner`, `FinishProcessing` is the body of the `_process`
  worker. The class invariant says status is Recording exactly while the
  recorder records and Processing exactly while a worker holds audio of at
  least 5000 bytes.
- `wrappers.dfy`: the `Option` type used for Python's `None`.

External behaviour is a parameter: how the audio device responds to a start
(`DeviceOutcome`: ready, the stream constructor raises, or starting the
constructed stream raises), how stopping the stream goes (`CloseOutcome`:
it closes, or `stop()`/`close()` raises), the WAV serialiser (`encodeWav`, a function from
samples to bytes), and the transcription service (`transcribe`, a function
from bytes to text or an error message). Threads are not modelled: the
worker is a method called after the toggle that handed it the audio, and the
lock is tested and set.

Three details of the code that the model keeps:

- A `start` that fails still empties the buffer, because the list is reset
  before the stream is opened (recorder.py:39-46); a failure in `stream.start()`
  also leaves the new stream object in place.
- When stopping or closing the stream raises (recorder.py:59-60), the
  recorder keeps recording and its stream, and the exception escapes the
  toggle body with status still Recording; the toggle lock is released all
  the same (main.py:173-176). `Toggle` returns that escaped error.
- An error message is replaced when its lower-cased form contains "auth" or
  "api key" (main.py:226), which is broader than "invalid api key".

## Model

| member | source | states |
|---|---|---|
| `AudioCapture.Recorder.constructor` | recorder.py:24-28 | a new recorder has no frames, no stream and is not recording |
| `AudioCapture.Recorder.IsRecording` | recorder.py:30-32 | `is_recording` reports the recording flag, and when it is true a stream is present |
| `AudioCapture.Recorder.Start` | recorder.py:34-47 | while recording nothing changes and no error is raised; otherwise the buffer is emptied, recording is armed exactly when the device opens and starts, the device's error is returned otherwise, and the stream slot is kept only if the constructor failed |
| `AudioCapture.Recorder.Stop` | recorder.py:49-69 | without a recording and a stream: returns nothing, changes nothing; if stopping or closing the stream raises, that error is returned and nothing changes; otherwise recording off and stream gone whether or not audio was captured, buffer empty, result nothing for an empty buffer and else the concatenated frames |
| `AudioCapture.Recorder.AudioCallback` | recorder.py:77-85 | the chunk is appended at the end and earlier frames are unchanged |
| `AudioCapture.Captured` | recorder.py:64-69 | the result is absent exactly when no frame was captured, never an empty result for an empty buffer |
| `AudioCapture.Concat` | recorder.py:68 | the chunks joined end to end (its properties are stated by `ConcatAppend`, `ConcatLength` and `ConcatAt`) |
| `AudioCapture.ConcatAppend` | recorder.py:67-68 | concatenating two runs of chunks equals concatenating each and joining them |
| `AudioCapture.ConcatSnoc` | recorder.py:68 | a chunk appended by the callback ends up after all earlier samples |
| `AudioCapture.ConcatLength` | recorder.py:67-68 | the concatenation holds exactly as many samples as all chunks together |
| `AudioCapture.ConcatAt` | recorder.py:67-68 | sample j of chunk i sits at position (samples of chunks before i) + j: arrival order is kept |
| `AudioCapture.ThreeChunks` | recorder.py:64-69 | chunks c1, c2, c3 give back exactly c1 ++ c2 ++ c3 |
| `StatusMachine.TooShort` | main.py:203 | no audio, or fewer than 5000 bytes (used by `Step` and `ToggleInner`) |
| `StatusMachine.Step` | main.py:179-231 | every status change is one of Idle→Recording, Recording→Processing, Processing→Idle, Recording→Idle; a press in Processing changes nothing; from Idle Recording exactly when the start succeeded, never Processing; from Recording the status stays Recording exactly when stopping the stream failed, and otherwise is Idle exactly when the audio is absent or under 5000 bytes; the worker's end always gives Idle |
| `StatusMachine.RunLegal` | main.py:179-231 | along any sequence of presses and worker completions every change of status is legal |
| `StatusMachine.EnterProcessing` | main.py:199-209 | along any run, Processing is entered only by a press from Recording that stopped the stream and brought at least 5000 bytes of audio |
| `StatusMachine.TogglesKeepProcessing` | main.py:182-184 | any number of presses from Processing leave the status Processing |
| `StatusMachine.NextToggleAccepted` | main.py:230-231 | after the worker finishes, from any status, the next successful press starts recording |
| `StatusMachine.FullCycle` | main.py:186-231 | a successful start, a long enough recording and the worker's end visit Idle, Recording, Processing, Idle |
| `Messages.Preview` | main.py:219 | text of at most 80 characters is shown as is; longer text as its first 80 characters followed by "...", 83 in all |
| `Messages.LongSentencePreview` | main.py:219 | a 102-character sentence is previewed as its first 80 characters plus "..." |
| `Messages.Lower` | main.py:226 | the message lower-cased character by character (ASCII) |
| `Messages.Contains` | main.py:226 | Python's `in` on strings, a left-to-right scan (characterised by `ContainsIff`) |
| `Messages.ContainsIff` | main.py:226 | the substring scan succeeds exactly when the word occurs at some position |
| `Messages.ClassifyError` | main.py:225-227 | the result is the fixed invalid-key message exactly when the lower-cased message contains "auth" or "api key", and the message itself otherwise |
| `Messages.InvalidApiKeyPhrase` | main.py:225-227 | a message containing "invalid api key" in any capitalisation yields the fixed message |
| `Messages.InvalidKeyMessageStable` | main.py:227 | the fixed message classifies to itself |
| `Messages.ClassifyIdempotent` | main.py:225-227 | classifying twice is classifying once |
| `Messages.NoLetterAVerbatim` | main.py:225-229 | a message with no "a" or "A" is shown verbatim |
| `App.MicrophoneError` | main.py:195 | the error notification "Microphone error: " followed by the device's message |
| `App.Encoded` | recorder.py:72-75 | the recorder's samples passed through the WAV serialiser, absent when there are none |
| `App.OutcomeNotice` | main.py:215-229 | non-empty text is announced by its preview under "Voiz - Copied!"; empty text by "No speech detected."; an error by its classified message under "Voiz - Error" |
| `App.AppState.constructor` | main.py:49-55 | the initial state is Idle with a fresh idle recorder, the lock free and nothing in flight |
| `App.AppState.SetStatus` | main.py:57-60 | afterwards the status equals the one given |
| `App.AppState.Notify` | main.py:151-157 | a notification is logged only when a tray icon exists |
| `App.AppState.TryAcquireToggleLock` | main.py:171 | acquisition succeeds exactly when the lock was free; the lock is held afterwards |
| `App.AppState.ReleaseToggleLock` | main.py:175-176 | the lock is free afterwards |
| `App.AppState.ToggleInner` | main.py:179-233 | keeps the invariant; in Processing nothing changes; from Idle the recorder is started and status follows its success, with the matching notification; from Recording the recorder is stopped; a failing stream stop lets its error escape and changes nothing; too short audio returns to Idle with the too-short notification, otherwise status is Processing and the worker holds exactly the encoded recorder output; the clipboard is untouched |
| `App.AppState.Toggle` | main.py:167-176 | a press that finds the lock held changes neither state nor recorder; otherwise the body's effect happens, its escaped error is returned, and the lock is free afterwards in every case |
| `App.AppState.FinishProcessing` | main.py:212-231 | the worker transcribes exactly the handed-over bytes; non-empty text goes to the clipboard and its preview is shown, empty text never reaches the clipboard; errors are shown classified; status is Idle and nothing is in flight for every outcome |
| `App.DictationCycle` | main.py:167-233 | start, three chunks, stop: the worker receives the encoding of c1 ++ c2 ++ c3; after it finishes the next press records again |

## Left out

- Threads and real locks: `threading.Lock`, the status lock in `set_status`, `threading.Thread` and the unguarded read of the status are modelled sequentially; the toggle lock is a flag and the worker a later method call.
- The tray icon image (`create_icon`, `COLOR_MAP`, its drawing), `_update_icon`, the tray menu, `main()` and the hotkey listener: presentation and OS wiring. Notifications are a log of (title, message), written only when a tray is attached.
- App.AppState.constructor: whether a tray icon is attached is fixed for the object's life; the source creates the state without a tray (main.py:53) and attaches it later (main.py:310), after the hotkey listener has started, so presses in between show no notifications.
- `pyperclip.copy`: a foreign clipboard call, modelled as a ghost log; its own failures, which the source would turn into an error notification, are not modelled.
- `sounddevice.InputStream` and `soundfile.write`: the device is a `DeviceOutcome` parameter and WAV serialisation a function parameter `encodeWav`; the WAV header layout is not part of this model, and an exception raised while serialising in `stop` is not modelled. In the source it escapes the toggle after the recorder was already disarmed (recorder.py:61-62), leaving status Recording while the recorder is not recording, which is outside `App.AppState.Valid`; the next press then gets nothing from `stop` and returns to Idle through the too-short path.
- The stream callback's `frames`, `time_info` and `status` arguments are ignored by the source and left out; a chunk is a flat sequence of mono samples.
- Messages.ClassifyError: lower-casing is ASCII only, whereas Python's `str.lower` also maps non-ASCII letters.
- Messages.Preview: counts Dafny characters (Unicode scalar values), which match Python's code points except for lone surrogates.
- transcriber.py, texttools.py, config.py, toolpicker.py and autostart.py: the transcription and chat API calls, credential storage, dialogs and Startup-folder handling are not part of this model; the transcription service is the `transcribe` parameter.

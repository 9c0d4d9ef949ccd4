/**
  * The application state and the hotkey toggle of main.py. The toggle
  * lock is a flag that is tested and set; the background transcription
  * thread becomes `FinishProcessing`, called some time after the toggle
  * that handed it the audio. Everything the outside world decides comes in
  * as a parameter: how the audio device behaves, the WAV serialiser, and
  * the transcription service.
  */
module App {
  import opened Wrappers
  import opened StatusMachine
  import opened Messages
  import AudioCapture

  /** A desktop notification shown through the tray icon. */
  datatype Notice = Notice(title: string, message: string)

  const RECORDING_STARTED := Notice("Voiz", "Recording started...")
  const TOO_SHORT := Notice("Voiz", "Recording too short. Please speak longer.")
  const NO_SPEECH := Notice("Voiz", "No speech detected.")

  function MicrophoneError(reason: string): Notice
  {
    Notice("Voiz - Error", "Microphone error: " + reason)
  }

  /** What the transcription service gives back for one recording. */
  datatype TranscriptionOutcome = Transcribed(text: string) | Failed(message: string)

  /** The recorder's samples, serialised as a WAV file when there are any. */
  function Encoded(samples: Option<seq<AudioCapture.Sample>>,
                   encodeWav: seq<AudioCapture.Sample> -> seq<Byte>): Option<seq<Byte>>
  {
    match samples
    case None => None
    case Some(s) => Some(encodeWav(s))
  }

  /** The notification the worker shows for a transcription outcome. */
  function OutcomeNotice(outcome: TranscriptionOutcome): (n: Notice)
    ensures outcome.Transcribed? && outcome.text != "" ==>
              n.title == "Voiz - Copied!" && n.message == Preview(outcome.text)
    ensures outcome.Transcribed? && outcome.text == "" ==> n == NO_SPEECH
    ensures outcome.Failed? ==> n.title == "Voiz - Error" && n.message == ClassifyError(outcome.message)
  {
    match outcome
    case Transcribed(text) => if text != "" then Notice("Voiz - Copied!", Preview(text)) else NO_SPEECH
    case Failed(message) => Notice("Voiz - Error", ClassifyError(message))
  }

  class AppState {
    var status: Status
    const recorder: AudioCapture.Recorder
    /** The re-entrancy guard of `toggle_recording`. */
    var toggleLocked: bool
    /** Whether a tray icon is attached; notifications are shown only then. */
    const tray: bool
    var notices: seq<Notice>
    /** Every text written to the clipboard, oldest first. */
    ghost var clipboard: seq<string>
    /** The audio handed to the transcription worker that has not finished yet. */
    var inFlight: Option<seq<Byte>>

    /**
      * The status agrees with the recorder and with the worker: Recording
      * exactly while the recorder records, Processing exactly while a
      * worker holds audio that passed the size check.
      */
    ghost predicate Valid()
      reads this, recorder
    {
      recorder.Valid() &&
      (status == Recording <==> recorder.recording) &&
      (status == Processing <==> inFlight.Some?) &&
      (inFlight.Some? ==> !TooShort(inFlight)) &&
      forall i :: 0 <= i < |clipboard| ==> clipboard[i] != ""
    }

    /** What a notification adds to the log: nothing without a tray icon. */
    function Shown(n: Notice): seq<Notice>
      reads this
    {
      if tray then [n] else []
    }

    constructor (tray: bool)
      ensures Valid() && fresh(recorder)
      ensures status == Idle && !toggleLocked && this.tray == tray
      ensures recorder.frames == [] && !recorder.hasStream && !recorder.recording
      ensures notices == [] && clipboard == [] && inFlight == None
    {
      status := Idle;
      recorder := new AudioCapture.Recorder();
      toggleLocked := false;
      this.tray := tray;
      notices := [];
      clipboard := [];
      inFlight := None;
    }

    /** `set_status`: afterwards the status is the one given. */
    method SetStatus(s: Status)
      modifies this`status
      ensures status == s
    {
      status := s;
    }

    method Notify(n: Notice)
      modifies this`notices
      ensures notices == old(notices) + Shown(n)
    {
      if tray {
        notices := notices + [n];
      }
    }

    /** The non-blocking acquire: it succeeds exactly when the lock was free, and the lock is held afterwards. */
    method TryAcquireToggleLock() returns (acquired: bool)
      modifies this`toggleLocked
      ensures acquired == !old(toggleLocked) && toggleLocked
    {
      acquired := !toggleLocked;
      toggleLocked := true;
    }

    method ReleaseToggleLock()
      modifies this`toggleLocked
      ensures !toggleLocked
    {
      toggleLocked := false;
    }

    /**
      * What one toggle body does, from the status it found: nothing while
      * Processing; from Idle, start the recorder and go to Recording, or stay
      * Idle with a microphone error; from Recording, stop the recorder and
      * either drop a too short recording (back to Idle) or hand exactly the
      * recorded bytes to the worker (Processing). When stopping the stream
      * raises, the error escapes and nothing changes, the status staying Recording.
      */
    twostate predicate Toggled(device: AudioCapture.DeviceOutcome, close: AudioCapture.CloseOutcome,
                               encodeWav: seq<AudioCapture.Sample> -> seq<Byte>)
      reads this, recorder
    {
      var audio := Encoded(AudioCapture.Captured(old(recorder.frames)), encodeWav);
      status == Step(old(status), HotkeyPress(device.DeviceReady?, close.StreamCloses?, audio)) &&
      clipboard == old(clipboard) &&
      (old(status) == Processing || (old(status) == Recording && close.CloseFails?) ==>
         recorder.frames == old(recorder.frames) && recorder.hasStream == old(recorder.hasStream) &&
         recorder.recording == old(recorder.recording) &&
         notices == old(notices) && inFlight == old(inFlight)) &&
      (old(status) == Idle ==>
         recorder.frames == [] && recorder.recording == device.DeviceReady? &&
         recorder.hasStream == (if device.OpenFails? then old(recorder.hasStream) else true) &&
         inFlight == None &&
         notices == old(notices) +
                    Shown(if device.DeviceReady? then RECORDING_STARTED else MicrophoneError(device.reason))) &&
      (old(status) == Recording && close.StreamCloses? ==>
         recorder.frames == [] && !recorder.recording && !recorder.hasStream &&
         inFlight == (if TooShort(audio) then None else audio) &&
         notices == old(notices) + (if TooShort(audio) then Shown(TOO_SHORT) else []))
    }

    /** `_toggle_recording_inner`; `escaped` is the exception it lets through. */
    method ToggleInner(device: AudioCapture.DeviceOutcome, close: AudioCapture.CloseOutcome,
                       encodeWav: seq<AudioCapture.Sample> -> seq<Byte>)
      returns (escaped: Option<string>)
      requires Valid()
      modifies this, recorder
      ensures Valid() && Toggled(device, close, encodeWav)
      ensures escaped == (if old(status) == Recording && close.CloseFails? then Some(close.reason) else None)
      ensures toggleLocked == old(toggleLocked)
    {
      if status == Processing {
        return None;
      }
      if status == Idle {
        var error := recorder.Start(device);
        if error.None? {
          SetStatus(Recording);
          Notify(RECORDING_STARTED);
        } else {
          Notify(MicrophoneError(error.value));
          SetStatus(Idle);
        }
        return None;
      }
      var samples, error := recorder.Stop(close);
      if error.Some? {
        return error;
      }
      var audio := Encoded(samples, encodeWav);
      if TooShort(audio) {
        Notify(TOO_SHORT);
        SetStatus(Idle);
        return None;
      }
      SetStatus(Processing);
      inFlight := audio;
      return None;
    }

    /**
      * `toggle_recording`: a press that finds the lock held changes nothing;
      * otherwise the body runs and the lock is free again afterwards, also
      * when the body raised.
      */
    method Toggle(device: AudioCapture.DeviceOutcome, close: AudioCapture.CloseOutcome,
                  encodeWav: seq<AudioCapture.Sample> -> seq<Byte>)
      returns (escaped: Option<string>)
      requires Valid()
      modifies this, recorder
      ensures Valid()
      ensures old(toggleLocked) ==> escaped == None && unchanged(this) && unchanged(recorder)
      ensures !old(toggleLocked) ==> !toggleLocked && Toggled(device, close, encodeWav)
      ensures !old(toggleLocked) ==>
                escaped == (if old(status) == Recording && close.CloseFails? then Some(close.reason) else None)
    {
      var acquired := TryAcquireToggleLock();
      if !acquired {
        return None;
      }
      escaped := ToggleInner(device, close, encodeWav);
      ReleaseToggleLock();
    }

    /**
      * The body of the `_process` worker: transcribe exactly the bytes that
      * were handed over; copy non-empty text to the clipboard and show its
      * preview, report empty text, or show the classified error; in every
      * case return to Idle.
      */
    method FinishProcessing(transcribe: seq<Byte> -> TranscriptionOutcome)
      requires Valid() && inFlight.Some?
      modifies this
      ensures Valid() && status == Step(old(status), WorkerDone) && inFlight == None
      ensures toggleLocked == old(toggleLocked)
      ensures var outcome := transcribe(old(inFlight).value);
              notices == old(notices) + Shown(OutcomeNotice(outcome)) &&
              clipboard == old(clipboard) +
                           (if outcome.Transcribed? && outcome.text != "" then [outcome.text] else [])
    {
      var outcome := transcribe(inFlight.value);
      if outcome.Transcribed? && outcome.text != "" {
        clipboard := clipboard + [outcome.text];
      }
      Notify(OutcomeNotice(outcome));
      inFlight := None;
      SetStatus(Idle);
    }
  }

  /**
    * A whole dictation cycle seen from outside: a press starts recording,
    * three chunks arrive, a second press hands exactly their encoding to the
    * worker, the worker finishes, and the next press records again.
    */
  method DictationCycle(c1: seq<AudioCapture.Sample>, c2: seq<AudioCapture.Sample>,
                        c3: seq<AudioCapture.Sample>,
                        encodeWav: seq<AudioCapture.Sample> -> seq<Byte>,
                        transcribe: seq<Byte> -> TranscriptionOutcome)
    returns (handedOver: Option<seq<Byte>>, after: Status)
    requires |encodeWav(c1 + c2 + c3)| >= MIN_AUDIO_SIZE
    ensures handedOver == Some(encodeWav(c1 + c2 + c3))
    ensures after == Recording
  {
    var app := new AppState(true);
    var escaped := app.Toggle(AudioCapture.DeviceReady, AudioCapture.StreamCloses, encodeWav);
    assert app.status == Recording;
    app.recorder.AudioCallback(c1);
    app.recorder.AudioCallback(c2);
    app.recorder.AudioCallback(c3);
    assert app.recorder.frames == [c1, c2, c3];
    AudioCapture.ThreeChunks(c1, c2, c3);
    escaped := app.Toggle(AudioCapture.DeviceReady, AudioCapture.StreamCloses, encodeWav);
    handedOver := app.inFlight;
    app.FinishProcessing(transcribe);
    escaped := app.Toggle(AudioCapture.DeviceReady, AudioCapture.StreamCloses, encodeWav);
    after := app.status;
  }
}

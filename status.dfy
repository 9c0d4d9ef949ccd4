/**
  * The status cycle that `toggle_recording` and its background worker drive
  * in main.py, as a function of the current status and of what the outside
  * world did: whether the microphone started, what audio the recorder
  * returned, and when the transcription worker finished.
  */
module StatusMachine {
  import opened Wrappers

  /** AppState's three status constants: idle (green), recording (red), processing (blue). */
  datatype Status = Idle | Recording | Processing

  type Byte = b: int | 0 <= b < 0x100

  /** Recordings whose encoded form is shorter than this many bytes are discarded. */
  const MIN_AUDIO_SIZE := 5000

  /** No audio, or audio too short to be worth transcribing. */
  predicate TooShort(audio: Option<seq<Byte>>)
  {
    audio.None? || |audio.value| < MIN_AUDIO_SIZE
  }

  /** What can happen to the status machine. */
  datatype Event =
    | HotkeyPress(started: bool, stopped: bool, audio: Option<seq<Byte>>)  // a hotkey press that got the toggle lock
    | WorkerDone                                        // the transcription worker finished

  /** The only transitions the toggle logic ever issues. */
  predicate Legal(from: Status, to: Status)
  {
    (from == Idle && to == Recording) || (from == Recording && to == Processing) ||
    (from == Processing && to == Idle) || (from == Recording && to == Idle)
  }

  /** The status after one event. */
  function Step(s: Status, e: Event): (r: Status)
    ensures r == s || Legal(s, r)
    ensures s == Processing && e.HotkeyPress? ==> r == Processing
    ensures s == Idle && e.HotkeyPress? ==> (r == Recording <==> e.started) && r != Processing
    ensures s == Recording && e.HotkeyPress? ==> (r == Recording <==> !e.stopped)
    ensures s == Recording && e.HotkeyPress? && e.stopped ==> (r == Idle <==> TooShort(e.audio))
    ensures e.WorkerDone? ==> r == Idle
  {
    match e
    case WorkerDone => Idle
    case HotkeyPress(started, stopped, audio) =>
      match s
      case Processing => Processing
      case Idle => if started then Recording else Idle
      case Recording => if !stopped then Recording else if TooShort(audio) then Idle else Processing
  }

  /** The statuses visited from `s` through the events, starting with `s`. */
  function Run(s: Status, events: seq<Event>): seq<Status>
    decreases |events|
  {
    [s] + if events == [] then [] else Run(Step(s, events[0]), events[1..])
  }

  lemma {:induction false} RunLength(s: Status, events: seq<Event>)
    ensures |Run(s, events)| == |events| + 1
    decreases |events|
  {
    if events != [] {
      RunLength(Step(s, events[0]), events[1..]);
    }
  }

  /** Status `k + 1` of a run is status `k` stepped by event `k`. */
  lemma {:induction false} RunStep(s: Status, events: seq<Event>, k: nat)
    requires k < |events|
    ensures |Run(s, events)| == |events| + 1
    ensures Run(s, events)[k + 1] == Step(Run(s, events)[k], events[k])
    decreases |events|
  {
    RunLength(s, events);
    if k > 0 {
      RunStep(Step(s, events[0]), events[1..], k - 1);
    }
  }

  /** Along any run every change of status is one of the four legal transitions. */
  lemma RunLegal(s: Status, events: seq<Event>, k: nat)
    requires k < |events|
    ensures |Run(s, events)| == |events| + 1
    ensures Run(s, events)[k] == Run(s, events)[k + 1] || Legal(Run(s, events)[k], Run(s, events)[k + 1])
  {
    RunStep(s, events, k);
  }

  /**
    * Processing is entered only by a toggle from Recording that stopped the
    * stream and brought enough audio; in particular a too short recording
    * never visits it.
    */
  lemma EnterProcessing(s: Status, events: seq<Event>, k: nat)
    requires k < |events|
    ensures |Run(s, events)| == |events| + 1
    ensures Run(s, events)[k] != Processing && Run(s, events)[k + 1] == Processing ==>
              Run(s, events)[k] == Recording && events[k].HotkeyPress? && events[k].stopped &&
              !TooShort(events[k].audio)
  {
    RunStep(s, events, k);
  }

  /** While a transcription is in flight, no number of hotkey presses leaves Processing. */
  lemma {:induction false} TogglesKeepProcessing(events: seq<Event>)
    requires forall i :: 0 <= i < |events| ==> events[i].HotkeyPress?
    ensures forall k :: 0 <= k < |Run(Processing, events)| ==> Run(Processing, events)[k] == Processing
    decreases |events|
  {
    if events != [] {
      TogglesKeepProcessing(events[1..]);
    }
  }

  /** Whatever the worker's outcome, the next successful toggle starts a new recording. */
  lemma NextToggleAccepted(s: Status, stopped: bool, audio: Option<seq<Byte>>)
    ensures Step(Step(s, WorkerDone), HotkeyPress(true, stopped, audio)) == Recording
  {
  }

  /** One full cycle: Idle, Recording, Processing, and back to Idle. */
  lemma FullCycle(audio: seq<Byte>, stopped: bool, junk: Option<seq<Byte>>)
    requires |audio| >= MIN_AUDIO_SIZE
    ensures Run(Idle, [HotkeyPress(true, stopped, junk), HotkeyPress(false, true, Some(audio)), WorkerDone]) ==
            [Idle, Recording, Processing, Idle]
  {
    var events := [HotkeyPress(true, stopped, junk), HotkeyPress(false, true, Some(audio)), WorkerDone];
    assert events[1..] == [HotkeyPress(false, true, Some(audio)), WorkerDone];
    assert events[1..][1..] == [WorkerDone];
    assert events[1..][1..][1..] == [];
    assert Step(Recording, HotkeyPress(false, true, Some(audio))) == Processing;
    assert Run(Processing, [WorkerDone]) == [Processing, Idle];
    assert Run(Recording, events[1..]) == [Recording, Processing, Idle];
  }
}

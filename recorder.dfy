/**
  * The audio recorder of recorder.py: a buffer-owning state machine.
  * `frames` is the ordered list of int16 sample chunks delivered by the
  * capture stream, `hasStream` says whether the `_stream` slot holds a
  * stream object, and `recording` is the `_recording` flag.
  */
module AudioCapture {
  import opened Wrappers

  /** One signed 16-bit PCM sample (the stream is opened with dtype int16). */
  type Sample = x: int | -0x8000 <= x < 0x8000

  /** What happens when the recorder asks the audio device for a stream. */
  datatype DeviceOutcome =
    | DeviceReady                  // the stream is constructed and started
    | OpenFails(reason: string)    // constructing the input stream raises
    | StartFails(reason: string)   // the stream is constructed, starting it raises

  /** What happens when the recorder stops and closes the stream. */
  datatype CloseOutcome =
    | StreamCloses                 // the stream stops and closes
    | CloseFails(reason: string)   // stopping or closing the stream raises

  /** The chunks joined end to end in arrival order (numpy's concatenate along axis 0, mono). */
  function Concat(frames: seq<seq<Sample>>): seq<Sample>
  {
    if frames == [] then [] else frames[0] + Concat(frames[1..])
  }

  /** Number of samples in all chunks together. */
  function TotalSamples(frames: seq<seq<Sample>>): nat
  {
    if frames == [] then 0 else |frames[0]| + TotalSamples(frames[1..])
  }

  /** What `stop` hands back for a buffer, once a running recording is stopped. */
  function Captured(frames: seq<seq<Sample>>): (r: Option<seq<Sample>>)
    ensures r.None? <==> frames == []
  {
    if frames == [] then None else Some(Concat(frames))
  }

  /** Concatenation distributes over joining two runs of chunks. */
  lemma {:induction false} ConcatAppend(a: seq<seq<Sample>>, b: seq<seq<Sample>>)
    ensures Concat(a + b) == Concat(a) + Concat(b)
  {
    if a == [] {
      assert a + b == b;
    } else {
      assert (a + b)[1..] == a[1..] + b;
      ConcatAppend(a[1..], b);
    }
  }

  /** A chunk delivered after the others lands after all their samples. */
  lemma ConcatSnoc(frames: seq<seq<Sample>>, chunk: seq<Sample>)
    ensures Concat(frames + [chunk]) == Concat(frames) + chunk
  {
    ConcatAppend(frames, [chunk]);
    assert Concat([chunk]) == chunk + Concat([]);
  }

  /** No sample is lost or duplicated: the result is exactly as long as all chunks together. */
  lemma {:induction false} ConcatLength(frames: seq<seq<Sample>>)
    ensures |Concat(frames)| == TotalSamples(frames)
  {
    if frames != [] {
      ConcatLength(frames[1..]);
    }
  }

  /**
    * Arrival order is kept: sample `j` of chunk `i` sits right after all
    * samples of the chunks that arrived before it.
    */
  lemma ConcatAt(frames: seq<seq<Sample>>, i: nat, j: nat)
    requires i < |frames| && j < |frames[i]|
    ensures TotalSamples(frames[..i]) + j < |Concat(frames)|
    ensures Concat(frames)[TotalSamples(frames[..i]) + j] == frames[i][j]
  {
    assert frames == frames[..i] + ([frames[i]] + frames[i + 1..]);
    ConcatAppend(frames[..i], [frames[i]] + frames[i + 1..]);
    ConcatAppend([frames[i]], frames[i + 1..]);
    assert Concat([frames[i]]) == frames[i] + Concat([]);
    ConcatLength(frames[..i]);
  }

  /** The three chunks of a session come back as one run, in order. */
  lemma ThreeChunks(c1: seq<Sample>, c2: seq<Sample>, c3: seq<Sample>)
    ensures Captured([c1, c2, c3]) == Some(c1 + c2 + c3)
  {
    assert [c1, c2, c3][1..] == [c2, c3];
    assert [c2, c3][1..] == [c3];
    assert [c3][1..] == [];
    assert Concat([c3]) == c3;
    assert Concat([c2, c3]) == c2 + c3;
    assert Concat([c1, c2, c3]) == c1 + (c2 + c3);
    assert c1 + (c2 + c3) == c1 + c2 + c3;
  }

  class Recorder {
    var frames: seq<seq<Sample>>
    var hasStream: bool
    var recording: bool

    /** Recording always runs on a stream that is present. */
    ghost predicate Valid()
      reads this
    {
      recording ==> hasStream
    }

    constructor ()
      ensures Valid()
      ensures frames == [] && !hasStream && !recording
    {
      frames, hasStream, recording := [], false, false;
    }

    /** The `is_recording` property. */
    function IsRecording(): (r: bool)
      reads this
      requires Valid()
      ensures r ==> hasStream
    {
      recording
    }

    /**
      * `start`: a no-op while recording. Otherwise the buffer is emptied
      * first, then the stream is opened and started; recording is armed
      * only when both succeed. The device's complaint is returned.
      */
    method Start(device: DeviceOutcome) returns (error: Option<string>)
      requires Valid()
      modifies this
      ensures Valid()
      ensures old(recording) ==> error == None && unchanged(this)
      ensures !old(recording) ==> frames == [] && recording == device.DeviceReady?
      ensures !old(recording) ==> error == (if device.DeviceReady? then None else Some(device.reason))
      ensures !old(recording) ==> hasStream == (if device.OpenFails? then old(hasStream) else true)
    {
      if recording {
        return None;
      }
      frames := [];
      match device {
        case OpenFails(reason) =>
          return Some(reason);
        case StartFails(reason) =>
          hasStream := true;
          return Some(reason);
        case DeviceReady =>
          hasStream := true;
          recording := true;
          return None;
      }
    }

    /**
      * `stop`: nothing happens without an active recording. Otherwise the
      * stream is stopped and closed; if that raises, the error escapes and
      * nothing has changed. Once it is closed, the stream is dropped and
      * recording disarmed; an empty buffer gives nothing, else the samples
      * in arrival order and the buffer is drained.
      */
    method Stop(close: CloseOutcome) returns (audio: Option<seq<Sample>>, error: Option<string>)
      requires Valid()
      modifies this
      ensures Valid()
      ensures !(old(recording) && old(hasStream)) ==> audio == None && error == None && unchanged(this)
      ensures old(recording) && old(hasStream) && close.CloseFails? ==>
                audio == None && error == Some(close.reason) && unchanged(this)
      ensures old(recording) && old(hasStream) && close.StreamCloses? ==>
                error == None && !recording && !hasStream && frames == [] && audio == Captured(old(frames))
    {
      if !recording || !hasStream {
        return None, None;
      }
      if close.CloseFails? {
        return None, Some(close.reason);
      }
      hasStream := false;
      recording := false;
      if frames == [] {
        return None, None;
      }
      audio, error := Some(Concat(frames)), None;
      frames := [];
    }

    /** The stream callback: the delivered chunk is copied to the end of the buffer. */
    method AudioCallback(chunk: seq<Sample>)
      modifies this`frames
      ensures frames == old(frames) + [chunk]
    {
      frames := frames + [chunk];
    }
  }
}

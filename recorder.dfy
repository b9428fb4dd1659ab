/**
 * The live transcript capture: a recorder over the browser's continuous
 * speech-recognition engine. Finalised results are committed to a buffer,
 * each followed by ". "; results still in flight form an interim part that is
 * rebuilt on every event. Every event publishes committed + interim to the
 * parent through its `setTranscript` callback, kept here as the list of
 * values it was called with.
 */
module Recorder {
  import opened Types

  /** One entry of the engine's result list: its best alternative and whether it is final. */
  datatype SpeechResult = SpeechResult(isFinal: bool, transcript: string)

  const NotSupportedMessage: string := "Speech recognition is not supported in this browser. Please try Chrome or Edge."
  const ErrorPrefix: string := "Speech recognition error: "

  /** The text a list of results contributes to the committed buffer. */
  function Finals(rs: seq<SpeechResult>): string
  {
    if rs == [] then ""
    else (if rs[0].isFinal then rs[0].transcript + ". " else "") + Finals(rs[1..])
  }

  /** The interim text of a list of results: its non-final transcripts, in order. */
  function Interims(rs: seq<SpeechResult>): string
  {
    if rs == [] then ""
    else (if rs[0].isFinal then "" else rs[0].transcript) + Interims(rs[1..])
  }

  /** The results an event asks to be processed: those from `resultIndex` on. */
  function Pending(results: seq<SpeechResult>, resultIndex: nat): seq<SpeechResult>
  {
    if resultIndex <= |results| then results[resultIndex..] else []
  }

  lemma {:induction false} FinalsAppend(a: seq<SpeechResult>, b: seq<SpeechResult>)
    ensures Finals(a + b) == Finals(a) + Finals(b)
    decreases |a|
  {
    if a == [] {
      assert a + b == b;
    } else {
      var head := if a[0].isFinal then a[0].transcript + ". " else "";
      assert (a + b)[0] == a[0];
      assert (a + b)[1..] == a[1..] + b;
      assert Finals(a + b) == head + Finals(a[1..] + b);
      FinalsAppend(a[1..], b);
    }
  }

  lemma {:induction false} InterimsAppend(a: seq<SpeechResult>, b: seq<SpeechResult>)
    ensures Interims(a + b) == Interims(a) + Interims(b)
    decreases |a|
  {
    if a == [] {
      assert a + b == b;
    } else {
      var head := if a[0].isFinal then "" else a[0].transcript;
      assert (a + b)[0] == a[0];
      assert (a + b)[1..] == a[1..] + b;
      assert Interims(a + b) == head + Interims(a[1..] + b);
      InterimsAppend(a[1..], b);
    }
  }

  /**
   * Final and interim text partition the results: a list of interim results
   * commits nothing, and a list of final ones leaves no interim text.
   */
  lemma {:induction false} FinalsOfInterims(rs: seq<SpeechResult>)
    ensures (forall i :: 0 <= i < |rs| ==> !rs[i].isFinal) ==> Finals(rs) == ""
    ensures (forall i :: 0 <= i < |rs| ==> rs[i].isFinal) ==> Interims(rs) == ""
    decreases |rs|
  {
    if rs != [] {
      FinalsOfInterims(rs[1..]);
      assert forall i :: 1 <= i < |rs| ==> rs[1..][i - 1] == rs[i];
    }
  }

  /** A single result commits its transcript and ". " if final, and is interim text otherwise. */
  lemma {:induction false} FinalsSingle(r: SpeechResult)
    ensures Finals([r]) == (if r.isFinal then r.transcript + ". " else "")
    ensures Interims([r]) == (if r.isFinal then "" else r.transcript)
  {
    assert [r][1..] == [];
  }

  /** Processing one more result extends the committed and the interim text by that result's share. */
  lemma ProcessStep(done: seq<SpeechResult>, r: SpeechResult)
    ensures Finals(done + [r]) == Finals(done) + (if r.isFinal then r.transcript + ". " else "")
    ensures Interims(done + [r]) == Interims(done) + (if r.isFinal then "" else r.transcript)
  {
    FinalsAppend(done, [r]);
    InterimsAppend(done, [r]);
    FinalsSingle(r);
  }

  /** The recognition engine, seen only through how often it was started and stopped. */
  class RecognitionEngine {
    var starts: nat
    var stops: nat

    constructor ()
      ensures starts == 0 && stops == 0
    {
      starts, stops := 0, 0;
    }

    method Start()
      modifies this
      ensures starts == old(starts) + 1 && stops == old(stops)
    {
      starts := starts + 1;
    }

    method Stop()
      modifies this
      ensures stops == old(stops) + 1 && starts == old(starts)
    {
      stops := stops + 1;
    }
  }

  class AudioRecorder {
    /** The engine, or null when the browser has none. */
    const recognition: RecognitionEngine?
    /**
     * The value of `isRecording` that the engine's event handlers captured
     * when they were installed at mount time (the effect runs only once).
     */
    const mountIsRecording: bool
    var isRecording: bool
    var error: Option<string>
    /** The committed buffer. */
    var finalTranscript: string
    /** The values passed to the parent's `setTranscript`, oldest first. */
    var published: seq<string>

    /** Mounting the recorder: without an engine, the not-supported notice is set. */
    constructor (engine: RecognitionEngine?)
      ensures recognition == engine
      ensures !isRecording && !mountIsRecording && finalTranscript == "" && published == []
      ensures error == if engine == null then Some(NotSupportedMessage) else None
    {
      recognition := engine;
      mountIsRecording := false;
      isRecording := false;
      finalTranscript := "";
      published := [];
      error := if engine == null then Some(NotSupportedMessage) else None;
    }

    /**
     * `onresult`: walks the results from `resultIndex`, appending each final
     * transcript and ". " to the committed buffer and collecting the
     * non-final ones into a fresh interim string, then publishes committed +
     * interim. Results below `resultIndex` are ignored; the recording flag
     * and the error are left alone.
     */
    method OnResult(resultIndex: nat, results: seq<SpeechResult>)
      modifies this
      ensures finalTranscript == old(finalTranscript) + Finals(Pending(results, resultIndex))
      ensures published == old(published) + [finalTranscript + Interims(Pending(results, resultIndex))]
      ensures isRecording == old(isRecording) && error == old(error)
    {
      var interim := "";
      var i := resultIndex;
      ghost var done: seq<SpeechResult> := [];
      while i < |results|
        invariant resultIndex <= i
        invariant i > resultIndex ==> i <= |results|
        invariant done == if i <= |results| then results[resultIndex..i] else []
        invariant finalTranscript == old(finalTranscript) + Finals(done)
        invariant interim == Interims(done)
        invariant isRecording == old(isRecording) && error == old(error) && published == old(published)
      {
        var result := results[i];
        ProcessStep(done, result);
        if result.isFinal {
          finalTranscript := finalTranscript + (result.transcript + ". ");
        } else {
          interim := interim + result.transcript;
        }
        assert results[resultIndex..i + 1] == results[resultIndex..i] + [result];
        done := done + [result];
        i := i + 1;
      }
      assert done == Pending(results, resultIndex);
      published := published + [finalTranscript + interim];
    }

    /** `onerror`: reports the engine's error code and stops counting as recording. */
    method OnError(code: string)
      modifies this
      ensures error == Some(ErrorPrefix + code) && !isRecording
      ensures finalTranscript == old(finalTranscript) && published == old(published)
    {
      error := Some(ErrorPrefix + code);
      isRecording := false;
    }

    /**
     * `onend` as the source has it: the guard reads the recording flag the
     * handler captured at mount, not the current one.
     */
    method OnEndAsWritten()
      requires recognition != null
      modifies recognition
      ensures recognition.starts == old(recognition.starts) + (if mountIsRecording then 1 else 0)
      ensures recognition.stops == old(recognition.stops)
    {
      if mountIsRecording {
        recognition.Start();
      }
    }

    /**
     * `onend` as intended: when the engine ends while the recorder is still
     * recording, it is started again; the buffers are not touched, so nothing
     * is lost or repeated.
     */
    method OnEnd()
      requires recognition != null
      modifies recognition
      ensures recognition.starts == old(recognition.starts) + (if isRecording then 1 else 0)
      ensures recognition.stops == old(recognition.stops)
    {
      if isRecording {
        recognition.Start();
      }
    }

    /**
     * `toggleRecording`: without an engine, nothing happens. While recording,
     * the engine is stopped once and recording ends, the committed buffer is
     * kept. Otherwise the committed buffer and the published transcript are
     * cleared, the engine is started once, recording begins and the error is
     * cleared.
     */
    method ToggleRecording()
      modifies this, recognition
      ensures recognition == null ==>
        isRecording == old(isRecording) && error == old(error) &&
        finalTranscript == old(finalTranscript) && published == old(published)
      ensures recognition != null && old(isRecording) ==>
        && !isRecording && error == old(error)
        && finalTranscript == old(finalTranscript) && published == old(published)
        && recognition.stops == old(recognition.stops) + 1 && recognition.starts == old(recognition.starts)
      ensures recognition != null && !old(isRecording) ==>
        && isRecording && error == None
        && finalTranscript == "" && published == old(published) + [""]
        && recognition.starts == old(recognition.starts) + 1 && recognition.stops == old(recognition.stops)
    {
      if recognition == null {
        return;
      }
      if isRecording {
        recognition.Stop();
        isRecording := false;
      } else {
        finalTranscript := "";
        published := published + [""];
        recognition.Start();
        isRecording := true;
        error := None;
      }
    }
  }

  /**
   * The engine ending during a recording, with the handler as written: the
   * recorder still shows it is recording, yet the engine is not restarted.
   */
  method StaleRestartScenario() returns (recording: bool, restarts: nat)
    ensures recording && restarts == 0
  {
    var engine := new RecognitionEngine();
    var recorder := new AudioRecorder(engine);
    recorder.ToggleRecording();
    var before := engine.starts;
    recorder.OnEndAsWritten();
    recording := recorder.isRecording;
    restarts := engine.starts - before;
  }

  /**
   * The same sequence with the intended handler: the engine is restarted
   * once, and the committed text survives the restart unchanged.
   */
  method RestartScenario(results: seq<SpeechResult>) returns (recording: bool, restarts: nat, kept: bool)
    ensures recording && restarts == 1 && kept
  {
    var engine := new RecognitionEngine();
    var recorder := new AudioRecorder(engine);
    recorder.ToggleRecording();
    recorder.OnResult(0, results);
    var committed := recorder.finalTranscript;
    var before := engine.starts;
    recorder.OnEnd();
    recording := recorder.isRecording;
    restarts := engine.starts - before;
    kept := recorder.finalTranscript == committed;
  }
}

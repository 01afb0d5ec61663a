/**
 * The state kept by the `useVoiceChat` hook: how the recognizer's start and
 * result events and the stop action update it, and the transcript it exposes.
 * The recognizer itself is not modelled; its events become method calls.
 */
module VoiceChat {
  import opened Wrappers

  /** One recognition result: whether it is final, and the transcript of its first alternative. */
  datatype RecognitionResult = RecognitionResult(isFinal: bool, transcript: string)

  /** The in-order concatenation of the transcripts of the results whose finality is `final`. */
  function TextOf(results: seq<RecognitionResult>, final: bool): string {
    if results == [] then ""
    else
      var last := results[|results| - 1];
      TextOf(results[..|results| - 1], final) + (if last.isFinal == final then last.transcript else "")
  }

  /** All transcripts, final or not, in order. */
  function Joined(results: seq<RecognitionResult>): string {
    if results == [] then "" else Joined(results[..|results| - 1]) + results[|results| - 1].transcript
  }

  /**
   * The `onresult` loop: walks the results once, appending each transcript to
   * the final text or to the interim text.
   */
  method SplitResults(results: seq<RecognitionResult>) returns (finalTranscript: string, currentInterim: string)
    ensures finalTranscript == TextOf(results, true)
    ensures currentInterim == TextOf(results, false)
  {
    finalTranscript := "";
    currentInterim := "";
    for i := 0 to |results|
      invariant finalTranscript == TextOf(results[..i], true)
      invariant currentInterim == TextOf(results[..i], false)
    {
      assert results[..i + 1][..i] == results[..i];
      var result := results[i];
      if result.isFinal {
        finalTranscript := finalTranscript + result.transcript;
      } else {
        currentInterim := currentInterim + result.transcript;
      }
    }
    assert results[..|results|] == results;
  }

  /** Splitting a batch in two splits each text in the same place. */
  lemma {:induction false} TextOfAppend(a: seq<RecognitionResult>, b: seq<RecognitionResult>, final: bool)
    ensures TextOf(a + b, final) == TextOf(a, final) + TextOf(b, final)
  {
    if b != [] {
      assert (a + b)[..|a + b| - 1] == a + b[..|b| - 1];
      TextOfAppend(a, b[..|b| - 1], final);
    } else {
      assert a + b == a;
    }
  }

  /** Every character of every result lands in exactly one of the two texts. */
  lemma {:induction false} SplitLosesNothing(results: seq<RecognitionResult>)
    ensures |TextOf(results, true)| + |TextOf(results, false)| == |Joined(results)|
  {
    if results != [] {
      SplitLosesNothing(results[..|results| - 1]);
    }
  }

  /** When every result is final, the final text is everything and the interim text is empty. */
  lemma {:induction false} AllFinal(results: seq<RecognitionResult>)
    requires forall i :: 0 <= i < |results| ==> results[i].isFinal
    ensures TextOf(results, true) == Joined(results)
    ensures TextOf(results, false) == ""
  {
    if results != [] {
      AllFinal(results[..|results| - 1]);
    }
  }

  const ResponsePrefix: string := "I heard you say: \""
  const ResponseSuffix: string := "\". This is a simulated response."

  /** The simulated reply to a processed utterance. */
  function SimulatedResponse(text: string): (r: string)
    ensures |r| == |ResponsePrefix| + |text| + |ResponseSuffix|
    ensures r[..|ResponsePrefix|] == ResponsePrefix
    ensures r[|ResponsePrefix|..|ResponsePrefix| + |text|] == text
    ensures r[|ResponsePrefix| + |text|..] == ResponseSuffix
  {
    var r := ResponsePrefix + text + ResponseSuffix;
    assert r[|ResponsePrefix|..|ResponsePrefix| + |text|] == text;
    assert r[|ResponsePrefix| + |text|..] == ResponseSuffix;
    r
  }

  /** Different utterances get different replies: the reply determines the text it quotes. */
  lemma SimulatedResponseInjective(a: string, b: string)
    requires SimulatedResponse(a) == SimulatedResponse(b)
    ensures a == b
  {
  }

  /** The hook's state. */
  class VoiceChatSession {
    var isRecording: bool
    var transcript: string
    var interimTranscript: string
    var isProcessing: bool
    var response: string

    constructor ()
      ensures !isRecording && transcript == "" && interimTranscript == ""
      ensures !isProcessing && response == ""
    {
      isRecording := false;
      transcript := "";
      interimTranscript := "";
      isProcessing := false;
      response := "";
    }

    /** The transcript the hook returns: the interim text while there is one, else the final one. */
    function DisplayedTranscript(): (t: string)
      reads this
      ensures interimTranscript != "" ==> t == interimTranscript
      ensures interimTranscript == "" ==> t == transcript
    {
      if interimTranscript != "" then interimTranscript else transcript
    }

    /** `onstart`: recording begins with both transcripts empty. */
    method OnStart()
      modifies this`isRecording, this`transcript, this`interimTranscript
      ensures isRecording && transcript == "" && interimTranscript == ""
    {
      isRecording := true;
      transcript := "";
      interimTranscript := "";
    }

    /**
     * `onresult`: a non-empty interim text replaces the interim transcript; a
     * non-empty final text replaces the transcript and clears the interim one.
     */
    method OnResult(results: seq<RecognitionResult>)
      modifies this`transcript, this`interimTranscript
      ensures TextOf(results, true) != "" ==> transcript == TextOf(results, true) && interimTranscript == ""
      ensures TextOf(results, true) == "" ==> transcript == old(transcript)
      ensures TextOf(results, true) == "" && TextOf(results, false) != "" ==> interimTranscript == TextOf(results, false)
      ensures TextOf(results, true) == "" && TextOf(results, false) == "" ==> interimTranscript == old(interimTranscript)
    {
      var finalTranscript, currentInterim := SplitResults(results);
      if currentInterim != "" {
        interimTranscript := currentInterim;
      }
      if finalTranscript != "" {
        transcript := finalTranscript;
        interimTranscript := "";
      }
    }

    /**
     * `stopRecording` up to its wait: recording stops and the interim text is
     * cleared; the text to process is the transcript if non-empty, else the
     * interim text. A non-empty text starts processing and is returned.
     */
    method StopRecording() returns (pending: Option<string>)
      modifies this`isRecording, this`interimTranscript, this`isProcessing
      ensures !isRecording && interimTranscript == ""
      ensures var text := if old(transcript) != "" then old(transcript) else old(interimTranscript);
        && (text != "" ==> pending == Some(text) && isProcessing)
        && (text == "" ==> pending == None && isProcessing == old(isProcessing))
    {
      var previousTranscript, previousInterim := transcript, interimTranscript;
      isRecording := false;
      interimTranscript := "";
      var finalText := if previousTranscript != "" then previousTranscript else previousInterim;
      if finalText != "" {
        isProcessing := true;
        pending := Some(finalText);
      } else {
        pending := None;
      }
    }

    /**
     * `onerror`. The recognizer is built inside `startRecording`, memoised once,
     * so its handler calls the `stopRecording` of the first render, which sees
     * both transcripts empty: recording stops and the interim text is cleared,
     * but nothing is processed, whatever was heard.
     */
    method OnError()
      modifies this`isRecording, this`interimTranscript
      ensures !isRecording && interimTranscript == ""
    {
      isRecording := false;
      interimTranscript := "";
    }

    /** `stopRecording` after its wait: the simulated reply is shown and processing ends. */
    method FinishProcessing(text: string)
      requires isProcessing && text != ""
      modifies this`response, this`isProcessing
      ensures response == SimulatedResponse(text) && !isProcessing
    {
      response := SimulatedResponse(text);
      isProcessing := false;
    }
  }
}

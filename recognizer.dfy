/** The speech-recognition hook: how a result event is turned into one
    transcript, and how the hook's `isListening` flag follows the recognizer's
    start, stop, error and end. The browser recognizer itself is outside the
    model; whether it exists and whether `start()` throws are inputs. */
module Recognizer {
  import opened Text

  /** One entry of a result event: the first alternative's text and whether the
      recognizer has settled on it. */
  datatype SpeechResult = SpeechResult(transcript: string, isFinal: bool)

  /** The texts of the final entries, in order, joined. */
  function Finals(rs: seq<SpeechResult>): string {
    if rs == [] then ""
    else Finals(rs[..|rs| - 1]) + (if rs[|rs| - 1].isFinal then rs[|rs| - 1].transcript else "")
  }

  /** The texts of the entries that are not final yet, in order, joined. */
  function Interims(rs: seq<SpeechResult>): string {
    if rs == [] then ""
    else Interims(rs[..|rs| - 1]) + (if rs[|rs| - 1].isFinal then "" else rs[|rs| - 1].transcript)
  }

  /** The entries an event asks the handler to read: from `resultIndex` on. */
  function Window(results: seq<SpeechResult>, resultIndex: nat): seq<SpeechResult> {
    if resultIndex <= |results| then results[resultIndex..] else []
  }

  /** `finalTranscript || interimTranscript` over the window. */
  function Transcript(results: seq<SpeechResult>, resultIndex: nat): string {
    var w := Window(results, resultIndex);
    if Finals(w) != "" then Finals(w) else Interims(w)
  }

  /** The `onresult` loop: visits the entries from `resultIndex` in order and
      appends each text to the final or to the interim transcript. */
  method AssembleTranscript(results: seq<SpeechResult>, resultIndex: nat) returns (full: string)
    ensures full == Transcript(results, resultIndex)
  {
    var finalText := "";
    var interimText := "";
    var i := resultIndex;
    while i < |results|
      invariant resultIndex <= i
      invariant i <= |results| || i == resultIndex
      invariant i <= |results| ==> finalText == Finals(results[resultIndex..i])
      invariant i <= |results| ==> interimText == Interims(results[resultIndex..i])
      invariant i > |results| ==> finalText == "" && interimText == ""
      decreases |results| - i
    {
      assert results[resultIndex..i + 1][..i - resultIndex] == results[resultIndex..i];
      var text := results[i].transcript;
      if results[i].isFinal {
        finalText := finalText + text;
      } else {
        interimText := interimText + text;
      }
      i := i + 1;
    }
    if resultIndex <= |results| {
      assert results[resultIndex..i] == results[resultIndex..];
    }
    full := if finalText != "" then finalText else interimText;
  }

  lemma {:induction false} FinalsAppend(a: seq<SpeechResult>, b: seq<SpeechResult>)
    ensures Finals(a + b) == Finals(a) + Finals(b)
    decreases |b|
  {
    if b == [] {
      assert a + b == a;
    } else {
      assert (a + b)[..|a + b| - 1] == a + b[..|b| - 1];
      FinalsAppend(a, b[..|b| - 1]);
    }
  }

  lemma {:induction false} InterimsAppend(a: seq<SpeechResult>, b: seq<SpeechResult>)
    ensures Interims(a + b) == Interims(a) + Interims(b)
    decreases |b|
  {
    if b == [] {
      assert a + b == a;
    } else {
      assert (a + b)[..|a + b| - 1] == a + b[..|b| - 1];
      InterimsAppend(a, b[..|b| - 1]);
    }
  }

  /** Entries before `resultIndex` contribute nothing: the transcript of an
      event depends only on the entries from `resultIndex` on. */
  lemma EarlierResultsIgnored(earlier: seq<SpeechResult>, later: seq<SpeechResult>)
    ensures Transcript(earlier + later, |earlier|) == Transcript(later, 0)
  {
    assert (earlier + later)[|earlier|..] == later;
  }

  /** An index at or past the end gives the empty transcript. */
  lemma IndexPastEndIsEmpty(results: seq<SpeechResult>, resultIndex: nat)
    requires resultIndex >= |results|
    ensures Transcript(results, resultIndex) == ""
  {
  }

  /** A final entry with text in the window makes the final concatenation win;
      its text is then part of the transcript. */
  lemma {:induction false} FinalTextWins(results: seq<SpeechResult>, resultIndex: nat, j: nat)
    requires resultIndex <= j < |results|
    requires results[j].isFinal && results[j].transcript != ""
    ensures Transcript(results, resultIndex) == Finals(results[resultIndex..])
    ensures Contains(Transcript(results, resultIndex), results[j].transcript)
  {
    var w := results[resultIndex..];
    var k := j - resultIndex;
    assert w == w[..k] + [w[k]] + w[k + 1..];
    FinalsAppend(w[..k] + [w[k]], w[k + 1..]);
    FinalsAppend(w[..k], [w[k]]);
    assert Finals([w[k]]) == w[k].transcript by {
      assert [w[k]][..0] == [];
    }
    var pre := Finals(w[..k]);
    assert Finals(w) == pre + w[k].transcript + Finals(w[k + 1..]);
    assert MatchesAt(Finals(w), w[k].transcript, |pre|);
    ContainsAt(Finals(w), w[k].transcript, |pre|);
  }

  /** A window with no final entry gives the interim concatenation. */
  lemma {:induction false} NoFinalGivesInterim(rs: seq<SpeechResult>)
    requires forall j :: 0 <= j < |rs| ==> !rs[j].isFinal
    ensures Finals(rs) == ""
    ensures Transcript(rs, 0) == Interims(rs)
  {
    if rs != [] {
      NoFinalGivesInterim(rs[..|rs| - 1]);
    }
    assert rs[0..] == rs;
  }

  // Long literals are written as concatenated pieces, which keeps the
  // verifier's work on them small.
  const UnsupportedMessage := "Your browser does " + "not support the " + "Web Speech API. " + "Please try using " + "Chrome or Edge."

  /** The message an error event is reported with. */
  function ErrorMessage(code: string, message: string): (r: string)
    ensures StartsWith(r, "Speech recognition" + " error: ")
  {
    "Speech recognition" + " error: " + code + " - " + message
  }

  /** The hook's state. `supported` says whether a recognizer was created; the
      event handlers are installed on it, so they fire only when it exists. */
  class SpeechRecognizer {
    const supported: bool
    var isListening: bool
    var transcript: string
    var error: Option<string>

    /** The hook never reports listening without a recognizer. */
    predicate Valid()
      reads this
    {
      isListening ==> supported
    }

    /** The first render and the setup effect: nothing heard, not listening, and
        an error when the browser has no recognizer. */
    constructor(supported: bool)
      ensures Valid()
      ensures this.supported == supported && !isListening && transcript == ""
      ensures error == if supported then None else Some(UnsupportedMessage)
    {
      this.supported := supported;
      isListening := false;
      transcript := "";
      error := if supported then None else Some(UnsupportedMessage);
    }

    /** The setup effect run again, as it is after every render of a provider
        that passes fresh callbacks: the cleanup stops the browser recognizer,
        whose end event arrives later through `OnEnd`; without a recognizer the
        unsupported-browser error is set again and reported. Returns whether
        the `onError` callback was called. */
    method Setup() returns (reported: bool)
      requires Valid()
      modifies this
      ensures Valid()
      ensures reported <==> !supported
      ensures error == if supported then old(error) else Some(UnsupportedMessage)
      ensures isListening == old(isListening) && transcript == old(transcript)
    {
      reported := !supported;
      if !supported {
        error := Some(UnsupportedMessage);
      }
    }

    /** `startListening`. `startThrows` is whether the recognizer's `start()`
        throws (it does when already started); the flag is then left alone. */
    method Start(startThrows: bool)
      requires Valid()
      modifies this
      ensures Valid()
      ensures isListening <==> (supported && !startThrows) || (old(isListening) && (!supported || startThrows))
      ensures supported && !startThrows ==> error.None?
      ensures !supported || startThrows ==> error == old(error)
      ensures transcript == old(transcript)
    {
      if error.Some? && !supported {
        return;
      }
      if supported {
        if !startThrows {
          isListening := true;
          error := None;
        }
      }
    }

    /** `stopListening`. */
    method Stop()
      requires Valid()
      modifies this
      ensures Valid()
      ensures !isListening
      ensures error == old(error) && transcript == old(transcript)
    {
      if supported {
        isListening := false;
      }
    }

    /** `onerror`: records the error and stops listening. */
    method OnError(code: string, message: string)
      requires Valid()
      modifies this
      ensures Valid()
      ensures !isListening && error == Some(ErrorMessage(code, message))
      ensures transcript == old(transcript)
    {
      error := Some(ErrorMessage(code, message));
      isListening := false;
    }

    /** `onend`. */
    method OnEnd()
      requires Valid()
      modifies this
      ensures Valid()
      ensures !isListening
      ensures error == old(error) && transcript == old(transcript)
    {
      isListening := false;
    }

    /** `onresult`: stores the assembled transcript and hands it on. */
    method OnResult(results: seq<SpeechResult>, resultIndex: nat) returns (full: string)
      requires Valid()
      modifies this
      ensures Valid()
      ensures full == Transcript(results, resultIndex) && transcript == full
      ensures isListening == old(isListening) && error == old(error)
    {
      full := AssembleTranscript(results, resultIndex);
      transcript := full;
    }

    /** `resetTranscript`. */
    method ResetTranscript()
      requires Valid()
      modifies this
      ensures Valid()
      ensures transcript == ""
      ensures isListening == old(isListening) && error == old(error)
    {
      transcript := "";
    }
  }
}

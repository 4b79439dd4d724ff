/** The voice session of the client: the four-state machine the voice provider
    keeps (`inactive`, `listening`, `processing`, `result`), driven by the user,
    by the speech recognizer's events and by the five-second reset timer. React
    setters become field updates; the history mutations become appended POST
    bodies; speech synthesis becomes an appended list of spoken texts; a
    scheduled reset becomes an entry in a queue that `DelayElapsed` consumes. */
module VoiceSession {
  import opened Text
  import opened Schema
  import Commands
  import Recognizer

  datatype VoiceState = Inactive | Listening | Processing | ShowingResult

  /** A scheduled five-second reset. The success reset carries the
      `continuousListening` value its closure captured when it was scheduled. */
  datatype Timer = AfterSuccess(resume: bool) | AfterError

  /** How the awaited step of `processCommand` settled: the ERPNext command
      interpreter returned its reply, or something in the `try` block threw. */
  datatype Settled = Resolved | Rejected(message: string)

  /** The provider's fixed user. */
  const SessionUser := 1

  /** `voiceSettings?.voiceResponse` is truthy. */
  predicate SpeaksReplies(settings: Option<VoiceSettings>) {
    settings.Some? && settings.value.voiceResponse == Some(true)
  }

  /** `voiceSettings?.continuousListening` is truthy. */
  predicate ListensContinuously(settings: Option<VoiceSettings>) {
    settings.Some? && settings.value.continuousListening == Some(true)
  }

  /** The text shown, spoken and recorded when the handler throws. */
  function ErrorText(message: string): (r: string)
    ensures StartsWith(r, "Error: ") && r[7..] == message
  {
    "Error: " + message
  }

  /** The wake-word test on the text heard so far. A settings record without a
      wake word never wakes the session. */
  predicate HeardWakeWord(settings: Option<VoiceSettings>, recognizedText: string) {
    settings.Some? && settings.value.wakeWord.Some?
    && Contains(ToLower(recognizedText), ToLower(settings.value.wakeWord.value))
  }

  /** The sentence the ERPNext command interpreter answers `command` with. */
  function HandlerResult(command: string, connection: Option<ErpConnection>,
                         api: Commands.Api): string
  {
    Commands.Sentence(Commands.HandleVoiceCommand(Commands.ErpNext, command, connection, api).message)
  }

  class Session {
    const recognizer: Recognizer.SpeechRecognizer
    var state: VoiceState
    var recognizedText: string
    var resultText: string
    var settings: Option<VoiceSettings>
    /** The settings the running `processCommand` closure captured when it was
        called; speaking and the reset timer read these, not the current ones. */
    var captured: Option<VoiceSettings>
    var posted: seq<InsertCommand>
    var spoken: seq<string>
    var timers: seq<Timer>
    var location: Option<Commands.Page>

    predicate Valid()
      reads this, recognizer
    {
      recognizer.Valid()
    }

    constructor(recognizer: Recognizer.SpeechRecognizer, settings: Option<VoiceSettings>)
      requires recognizer.Valid()
      ensures Valid()
      ensures this.recognizer == recognizer && this.settings == settings
      ensures state == Inactive && recognizedText == "" && resultText == ""
      ensures posted == [] && spoken == [] && timers == [] && location.None?
    {
      this.recognizer := recognizer;
      this.settings := settings;
      captured := settings;
      state := Inactive;
      recognizedText := "";
      resultText := "";
      posted := [];
      spoken := [];
      timers := [];
      location := None;
    }

    /** The settings query delivered a (new) value. */
    method LoadSettings(s: Option<VoiceSettings>)
      requires Valid()
      modifies this
      ensures Valid()
      ensures settings == s
      ensures state == old(state) && recognizedText == old(recognizedText)
      ensures resultText == old(resultText) && posted == old(posted)
      ensures spoken == old(spoken) && timers == old(timers) && location == old(location)
      ensures captured == old(captured)
    {
      settings := s;
    }

    /** `startListening`: clears what was heard and shown and listens, from any
        state. `startThrows` is whether the recognizer's `start()` throws. */
    method StartListening(startThrows: bool)
      requires Valid()
      modifies this, recognizer
      ensures Valid()
      ensures state == Listening
      ensures recognizer.transcript == "" && recognizedText == "" && resultText == ""
      ensures recognizer.isListening <==> (recognizer.supported && !startThrows)
                                          || (old(recognizer.isListening) && (!recognizer.supported || startThrows))
      ensures recognizer.error == if recognizer.supported && !startThrows then None else old(recognizer.error)
      ensures settings == old(settings) && posted == old(posted) && spoken == old(spoken)
      ensures timers == old(timers) && location == old(location) && captured == old(captured)
    {
      recognizer.ResetTranscript();
      recognizedText := "";
      resultText := "";
      state := Listening;
      recognizer.Start(startThrows);
    }

    /** `stopListening`: stops the recognizer and goes idle, from any state. */
    method StopListening()
      requires Valid()
      modifies this, recognizer
      ensures Valid()
      ensures state == Inactive && !recognizer.isListening
      ensures recognizer.transcript == old(recognizer.transcript)
      ensures recognizedText == old(recognizedText) && resultText == old(resultText)
      ensures settings == old(settings) && posted == old(posted) && spoken == old(spoken)
      ensures timers == old(timers) && location == old(location) && captured == old(captured)
    {
      recognizer.Stop();
      state := Inactive;
    }

    /** A result event: the assembled transcript becomes the recognized text. */
    method RecognizerResult(results: seq<Recognizer.SpeechResult>, resultIndex: nat)
      requires Valid()
      modifies this, recognizer
      ensures Valid()
      ensures recognizedText == Recognizer.Transcript(results, resultIndex)
      ensures recognizer.transcript == recognizedText
      ensures recognizer.isListening == old(recognizer.isListening)
      ensures state == old(state) && resultText == old(resultText)
      ensures settings == old(settings) && posted == old(posted) && spoken == old(spoken)
      ensures timers == old(timers) && location == old(location) && captured == old(captured)
    {
      var full := recognizer.OnResult(results, resultIndex);
      recognizedText := full;
    }

    /** The first, synchronous part of `processCommand`: the session is busy and
        a pending record for the command is posted. */
    method BeginCommand(command: string)
      requires Valid()
      modifies this
      ensures Valid()
      ensures state == Processing && captured == settings
      ensures posted == old(posted) + [PendingRecord(SessionUser, command)]
      ensures recognizedText == old(recognizedText) && resultText == old(resultText)
      ensures settings == old(settings) && spoken == old(spoken)
      ensures timers == old(timers) && location == old(location)
    {
      captured := settings;
      state := Processing;
      posted := posted + [PendingRecord(SessionUser, command)];
    }

    /** The part of `processCommand` from the awaited interpreter on. When it
        resolves, its reply is the ERPNext interpreter's answer to `command`
        with the connection and back-end answers given, and a navigation reply
        moves the page. That sentence, or the error text, is shown, spoken when
        the captured settings speak replies, and recorded, and a reset is
        scheduled with the captured `continuousListening`. */
    method SettleCommand(command: string, connection: Option<ErpConnection>, api: Commands.Api,
                         outcome: Settled)
      requires Valid()
      modifies this
      ensures Valid()
      ensures state == ShowingResult
      ensures var text := if outcome.Resolved? then HandlerResult(command, connection, api)
                          else ErrorText(outcome.message);
              && resultText == text
              && spoken == old(spoken) + (if SpeaksReplies(captured) then [text] else [])
              && posted == old(posted)
                 + [SettledRecord(SessionUser, command, text, outcome.Resolved?)]
      ensures timers == old(timers)
                        + [if outcome.Resolved? then AfterSuccess(ListensContinuously(captured))
                           else AfterError]
      ensures var goTo := Commands.HandleVoiceCommand(Commands.ErpNext, command, connection, api).goTo;
              location == if outcome.Resolved? && goTo.Some? then goTo else old(location)
      ensures recognizedText == old(recognizedText) && settings == old(settings)
      ensures captured == old(captured)
    {
      var text;
      if outcome.Resolved? {
        var reply := Commands.HandleVoiceCommand(Commands.ErpNext, command, connection, api);
        if reply.goTo.Some? {
          location := reply.goTo;
        }
        text := Commands.Sentence(reply.message);
      } else {
        text := ErrorText(outcome.message);
      }
      resultText := text;
      state := ShowingResult;
      if SpeaksReplies(captured) {
        spoken := spoken + [text];
      }
      if outcome.Resolved? {
        posted := posted + [SettledRecord(SessionUser, command, text, true)];
        timers := timers + [AfterSuccess(ListensContinuously(captured))];
      } else {
        posted := posted + [SettledRecord(SessionUser, command, text, false)];
        timers := timers + [AfterError];
      }
    }

    /** `processCommand` with the ERPNext interpreter, when nothing else happens
        while it is awaited: two history records, pending then success, and the
        interpreter's sentence shown. A navigation reply also moves the page. */
    method ProcessCommand(command: string, connection: Option<ErpConnection>, api: Commands.Api)
      requires Valid()
      modifies this
      ensures Valid()
      ensures var result := HandlerResult(command, connection, api);
              && state == ShowingResult && resultText == result
              && posted == old(posted) + [PendingRecord(SessionUser, command),
                                          SettledRecord(SessionUser, command, result, true)]
              && spoken == old(spoken) + (if SpeaksReplies(settings) then [result] else [])
      ensures timers == old(timers) + [AfterSuccess(ListensContinuously(settings))]
      ensures var goTo := Commands.HandleVoiceCommand(Commands.ErpNext, command, connection, api).goTo;
              location == if goTo.Some? then goTo else old(location)
      ensures recognizedText == old(recognizedText) && settings == old(settings)
      ensures captured == settings
    {
      BeginCommand(command);
      SettleCommand(command, connection, api, Resolved);
    }

    /** `onEnd`: only a listening session reacts. A transcript with some
        non-blank text starts processing it; otherwise the session goes idle.
        Returns the command whose processing began, if any. */
    method RecognizerEnd() returns (started: Option<string>)
      requires Valid()
      modifies this, recognizer
      ensures Valid()
      ensures !recognizer.isListening
      ensures recognizer.transcript == old(recognizer.transcript)
      ensures old(state) != Listening ==>
                state == old(state) && posted == old(posted) && started.None? && captured == old(captured)
      ensures old(state) == Listening && !IsBlank(old(recognizer.transcript)) ==>
                state == Processing && started == Some(old(recognizer.transcript))
                && posted == old(posted) + [PendingRecord(SessionUser, old(recognizer.transcript))]
                && captured == settings
      ensures old(state) == Listening && IsBlank(old(recognizer.transcript)) ==>
                state == Inactive && posted == old(posted) && started.None? && captured == old(captured)
      ensures recognizedText == old(recognizedText) && resultText == old(resultText)
      ensures settings == old(settings) && spoken == old(spoken)
      ensures timers == old(timers) && location == old(location)
    {
      recognizer.OnEnd();
      started := None;
      if state == Listening {
        var finalText := recognizer.transcript;
        if finalText != "" && Trim(finalText) != "" {
          state := Processing;
          BeginCommand(finalText);
          started := Some(finalText);
        } else {
          state := Inactive;
        }
      }
    }

    /** `onError`: the recognizer stops and the session goes idle. */
    method RecognizerError(code: string, message: string)
      requires Valid()
      modifies this, recognizer
      ensures Valid()
      ensures state == Inactive && !recognizer.isListening
      ensures recognizer.error == Some(Recognizer.ErrorMessage(code, message))
      ensures recognizer.transcript == old(recognizer.transcript)
      ensures recognizedText == old(recognizedText) && resultText == old(resultText)
      ensures settings == old(settings) && posted == old(posted) && spoken == old(spoken)
      ensures timers == old(timers) && location == old(location) && captured == old(captured)
    {
      recognizer.OnError(code, message);
      state := Inactive;
    }

    /** The oldest scheduled reset fires (all are five seconds, so they fire in
        the order they were scheduled). A success reset captured with continuous
        listening on starts listening again; every other reset goes idle. */
    method DelayElapsed(startThrows: bool)
      requires Valid() && timers != []
      modifies this, recognizer
      ensures Valid()
      ensures timers == old(timers)[1..]
      ensures old(timers)[0] == AfterSuccess(true) ==>
                state == Listening && recognizedText == "" && resultText == ""
                && recognizer.transcript == ""
                && (recognizer.isListening <==>
                      ((recognizer.supported && !startThrows)
                       || (old(recognizer.isListening) && (!recognizer.supported || startThrows))))
                && recognizer.error == if recognizer.supported && !startThrows then None else old(recognizer.error)
      ensures old(timers)[0] != AfterSuccess(true) ==>
                state == Inactive && recognizedText == old(recognizedText)
                && resultText == old(resultText)
                && recognizer.transcript == old(recognizer.transcript)
                && recognizer.isListening == old(recognizer.isListening)
                && recognizer.error == old(recognizer.error)
      ensures settings == old(settings) && posted == old(posted) && spoken == old(spoken)
      ensures location == old(location) && captured == old(captured)
    {
      var t := timers[0];
      timers := timers[1..];
      if t == AfterSuccess(true) {
        StartListening(startThrows);
      } else {
        state := Inactive;
      }
    }

    /** The wake-word effect: with continuous listening on, the recognizer
        running and the session idle, hearing the wake word (ignoring case)
        clears the text and starts listening for a command. */
    method WakeWordCheck()
      requires Valid()
      modifies this, recognizer
      ensures Valid()
      ensures var wakes := ListensContinuously(settings) && old(recognizer.isListening)
                           && old(state) == Inactive && HeardWakeWord(settings, old(recognizedText));
              && (wakes ==> state == Listening && recognizedText == "" && recognizer.transcript == "")
              && (!wakes ==> state == old(state) && recognizedText == old(recognizedText)
                             && recognizer.transcript == old(recognizer.transcript))
      ensures recognizer.isListening == old(recognizer.isListening)
      ensures resultText == old(resultText) && settings == old(settings)
      ensures posted == old(posted) && spoken == old(spoken)
      ensures timers == old(timers) && location == old(location) && captured == old(captured)
    {
      if ListensContinuously(settings) && recognizer.isListening && state == Inactive
         && HeardWakeWord(settings, recognizedText)
      {
        recognizer.ResetTranscript();
        recognizedText := "";
        state := Listening;
      }
    }

    /** A render of the provider: its callbacks are new objects, so the
        recognizer's setup effect runs again. Without a recognizer that
        reports the unsupported-browser error, whose callback sets the session
        inactive; so in such a browser a session that starts listening falls
        back to inactive at the next render. */
    method RenderEffect()
      requires Valid()
      modifies this, recognizer
      ensures Valid()
      ensures !recognizer.supported ==>
                state == Inactive && recognizer.error == Some(Recognizer.UnsupportedMessage)
      ensures recognizer.supported ==> state == old(state) && recognizer.error == old(recognizer.error)
      ensures recognizer.isListening == old(recognizer.isListening)
      ensures recognizer.transcript == old(recognizer.transcript)
      ensures recognizedText == old(recognizedText) && resultText == old(resultText)
      ensures settings == old(settings) && posted == old(posted) && spoken == old(spoken)
      ensures timers == old(timers) && location == old(location) && captured == old(captured)
    {
      var reported := recognizer.Setup();
      if reported {
        state := Inactive;
      }
    }
  }

  /** The processing guard `finalText && finalText.trim() !== ""` is the
      blank test alone: the empty string is blank. */
  lemma NonBlankGuard(s: string)
    ensures (s != "" && Trim(s) != "") <==> !IsBlank(s)
  {
  }
}

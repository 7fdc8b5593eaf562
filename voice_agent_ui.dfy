/**
 * The widget's UI controller (class VoiceAgentUI), with the DOM reduced to what its methods
 * change: whether the panel is open, the list of entries in the conversation area, the
 * error line, and the status display (indicator class, status text, mic button state and
 * which icon it shows). The engine's callbacks reach the controller through `Deliver`, one
 * call per signal, in the order the engine produced them.
 */
module AgentUI {
  import opened JsValues
  import opened Agent

  const BrowserUnsupportedMessage :=
    "Your browser does not support voice features. Please use Chrome, Edge, or Safari."
  const InitialWelcome := "Hi! I'm your AI Advantage Solutions voice assistant."
  const ResetWelcome := "Conversation reset. What would you like to know?"

  /** One element of the conversation area. */
  datatype Entry =
    | Welcome(text: string)
    | Message(role: string, caption: string, text: string)
    | Interim(text: string)

  /** The status area: the indicator's status class, the text, the mic button and its icons. */
  datatype Display = Display(
    indicator: Option<string>,
    statusText: string,
    micActive: bool,
    micIconShown: bool,
    stopIconShown: bool)

  /** The string the engine passes to `onStatusChange`. */
  function StatusName(s: Status): string
  {
    match s
    case Idle => "idle"
    case Listening => "listening"
    case Thinking => "thinking"
    case Speaking => "speaking"
  }

  /**
   * The display for a status: `listening` and `speaking` show their text with the button
   * active and the stop icon; `thinking` shows its text with the mic icon and the button
   * inactive; any other value shows "Ready to chat" with the mic icon and no indicator class.
   */
  function DisplayFor(status: string): (r: Display)
    ensures r.micActive <==> status == "listening" || status == "speaking"
    ensures r.stopIconShown <==> r.micActive
    ensures r.micIconShown <==> !r.micActive
    ensures status in {"listening", "thinking", "speaking"} ==> r.indicator == Some(status)
    ensures status !in {"listening", "thinking", "speaking"} ==> r.indicator.None?
    ensures r.statusText == "Ready to chat" <==> status !in {"listening", "thinking", "speaking"}
    ensures status == "listening" ==> r.statusText == "Listening..."
    ensures status == "thinking" ==> r.statusText == "Thinking..."
    ensures status == "speaking" ==> r.statusText == "Speaking..."
  {
    if status == "listening" then Display(Some("listening"), "Listening...", true, false, true)
    else if status == "thinking" then Display(Some("thinking"), "Thinking...", false, true, false)
    else if status == "speaking" then Display(Some("speaking"), "Speaking...", true, false, true)
    else Display(None, "Ready to chat", false, true, false)
  }

  /** Idle, the one engine status the switch does not name, gets the default display. */
  lemma EngineStatusDisplays(s: Status)
    ensures DisplayFor(StatusName(s)).micActive <==> s == Listening || s == Speaking
    ensures DisplayFor(StatusName(s)).statusText == "Ready to chat" <==> s == Idle
  {
  }

  /** The label of a message: "You" for the user, "Assistant" for any other role. */
  function Label(role: string): (r: string)
    ensures r == "You" <==> role == "user"
    ensures r == "Assistant" <==> role != "user"
  {
    if role == "user" then "You" else "Assistant"
  }

  function CountInterim(entries: seq<Entry>): nat
  {
    if |entries| == 0 then 0
    else (if entries[0].Interim? then 1 else 0) + CountInterim(entries[1..])
  }

  /** The entries other than interim transcripts, in order. */
  function Settled(entries: seq<Entry>): seq<Entry>
  {
    if |entries| == 0 then []
    else (if entries[0].Interim? then [] else [entries[0]]) + Settled(entries[1..])
  }

  /** `querySelector('.message-interim')` and `remove()`: the first interim entry goes. */
  function RemoveFirstInterim(entries: seq<Entry>): seq<Entry>
  {
    if |entries| == 0 then []
    else if entries[0].Interim? then entries[1..]
    else [entries[0]] + RemoveFirstInterim(entries[1..])
  }

  /** Removing the first interim entry removes one interim entry, if any, and nothing else. */
  lemma {:induction false} RemoveFirstInterimEffect(entries: seq<Entry>)
    ensures CountInterim(entries) > 0 ==> CountInterim(RemoveFirstInterim(entries)) == CountInterim(entries) - 1
    ensures CountInterim(entries) == 0 ==> RemoveFirstInterim(entries) == entries
    ensures Settled(RemoveFirstInterim(entries)) == Settled(entries)
  {
    if |entries| > 0 {
      RemoveFirstInterimEffect(entries[1..]);
      if !entries[0].Interim? {
        var rest := RemoveFirstInterim(entries[1..]);
        assert ([entries[0]] + rest)[1..] == rest;
        if CountInterim(entries) == 0 {
          assert [entries[0]] + entries[1..] == entries;
        }
      }
    }
  }

  /** Appending adds the appended entries' interim count. */
  lemma {:induction false} CountInterimAppend(a: seq<Entry>, b: seq<Entry>)
    ensures CountInterim(a + b) == CountInterim(a) + CountInterim(b)
  {
    if |a| == 0 {
      assert a + b == b;
    } else {
      assert (a + b)[1..] == a[1..] + b;
      CountInterimAppend(a[1..], b);
    }
  }

  /** The order of the three mic-button actions. */
  datatype MicAction = StopListeningAction | StopSpeakingAction | StartListeningAction

  /** Stop listening if listening; else stop speaking if speaking; else start listening. */
  function MicDispatch(isListening: bool, isSpeaking: bool): (r: MicAction)
    ensures r == StopListeningAction <==> isListening
    ensures r == StopSpeakingAction <==> !isListening && isSpeaking
    ensures r == StartListeningAction <==> !isListening && !isSpeaking
  {
    if isListening then StopListeningAction
    else if isSpeaking then StopSpeakingAction
    else StartListeningAction
  }

  class VoiceAgentUI {
    const agent: VoiceAgent
    var isOpen: bool
    var conversation: seq<Entry>
    var errorText: string
    var errorShown: bool
    var display: Display

    /** At most one interim transcript is on screen. */
    ghost predicate Valid()
      reads this
    {
      CountInterim(conversation) <= 1
    }

    /**
     * The panel closed, the welcome entry, "Ready to chat"; a browser without speech recognition
     * or without speech synthesis is reported.
     */
    constructor(agent: VoiceAgent, hasRecognition: bool, hasSynthesis: bool)
      requires hasRecognition == agent.hasRecognizer
      ensures Valid()
      ensures this.agent == agent && !isOpen
      ensures conversation == [Welcome(InitialWelcome)]
      ensures display == DisplayFor("idle")
      ensures errorShown <==> !(hasRecognition && hasSynthesis)
      ensures errorShown ==> errorText == BrowserUnsupportedMessage
    {
      this.agent := agent;
      isOpen := false;
      conversation := [Welcome(InitialWelcome)];
      display := DisplayFor("idle");
      errorText, errorShown := "", false;
      new;
      var support := BrowserSupport(hasRecognition, hasSynthesis);
      if !support.supported {
        ShowError(BrowserUnsupportedMessage);
      }
    }

    method Open()
      modifies this`isOpen
      ensures isOpen
    {
      isOpen := true;
    }

    /** Closes the panel and stops capture and playback. */
    method Close()
      requires Valid()
      modifies this`isOpen, agent
      ensures Valid() && !isOpen
      ensures agent.trace == old(agent.trace) +
                             (if agent.hasRecognizer && old(agent.isListening) then [RecognizerStopped] else []) +
                             [SynthesisCancelled, StatusChanged(Idle)]
      ensures !agent.isSpeaking && agent.isListening == old(agent.isListening)
      ensures agent.conversationHistory == old(agent.conversationHistory)
      ensures agent.systemContext == old(agent.systemContext) && agent.apiKey == old(agent.apiKey)
    {
      isOpen := false;
      agent.StopListening();
      agent.StopSpeaking();
    }

    /** Flips the panel: closing also stops capture and playback. */
    method Toggle()
      requires Valid()
      modifies this`isOpen, agent
      ensures Valid()
      ensures isOpen == !old(isOpen)
      ensures old(isOpen) ==>
                agent.trace == old(agent.trace) +
                               (if agent.hasRecognizer && old(agent.isListening) then [RecognizerStopped] else []) +
                               [SynthesisCancelled, StatusChanged(Idle)] &&
                !agent.isSpeaking
      ensures !old(isOpen) ==> agent.trace == old(agent.trace) && agent.isSpeaking == old(agent.isSpeaking)
      ensures agent.isListening == old(agent.isListening)
      ensures agent.conversationHistory == old(agent.conversationHistory)
      ensures agent.systemContext == old(agent.systemContext) && agent.apiKey == old(agent.apiKey)
    {
      if isOpen {
        Close();
      } else {
        Open();
      }
    }

    /**
     * One agent action per click, in priority order: stop listening, else stop speaking,
     * else clear the error line and start listening.
     */
    method HandleMicClick(startError: Option<string>)
      requires Valid()
      modifies this`errorShown, agent
      ensures Valid()
      ensures var action := MicDispatch(old(agent.isListening), old(agent.isSpeaking));
        && (action == StopListeningAction ==>
              agent.trace == old(agent.trace) + (if agent.hasRecognizer then [RecognizerStopped] else []) &&
              agent.isSpeaking == old(agent.isSpeaking) && errorShown == old(errorShown))
        && (action == StopSpeakingAction ==>
              agent.trace == old(agent.trace) + [SynthesisCancelled, StatusChanged(Idle)] &&
              !agent.isSpeaking && errorShown == old(errorShown))
        && (action == StartListeningAction ==>
              !errorShown && !agent.isSpeaking &&
              agent.trace == old(agent.trace) +
                             (if !agent.hasRecognizer then [ErrorShown(NotAvailableMessage)]
                              else [RecognizerStartRequested] +
                                   (if startError.Some? then [ErrorShown(CouldNotStartPrefix + startError.value)]
                                    else [])))
      ensures agent.isListening == old(agent.isListening)
      ensures agent.conversationHistory == old(agent.conversationHistory)
      ensures agent.systemContext == old(agent.systemContext) && agent.apiKey == old(agent.apiKey)
    {
      if agent.isListening {
        agent.StopListening();
      } else if agent.isSpeaking {
        agent.StopSpeaking();
      } else {
        HideError();
        agent.StartListening(startError);
      }
    }

    /** Resets the engine, replaces the conversation with the reset welcome, clears the error line. */
    method HandleReset()
      requires Valid()
      modifies this`conversation, this`errorShown, agent
      ensures Valid()
      ensures conversation == [Welcome(ResetWelcome)] && !errorShown
      ensures agent.conversationHistory == [] && !agent.isSpeaking
      ensures agent.trace == old(agent.trace) +
                             (if agent.hasRecognizer && old(agent.isListening) then [RecognizerStopped] else []) +
                             [SynthesisCancelled, StatusChanged(Idle), StatusChanged(Idle)]
      ensures LastStatus(agent.trace) == Some(Idle)
      ensures agent.isListening == old(agent.isListening) && agent.apiKey == old(agent.apiKey)
      ensures agent.systemContext == old(agent.systemContext)
    {
      agent.ResetConversation();
      conversation := [Welcome(ResetWelcome)];
      HideError();
    }

    /** Redraws the status area for a status string. */
    method UpdateStatus(status: string)
      modifies this`display
      ensures display == DisplayFor(status)
    {
      display := DisplayFor(status);
    }

    /**
     * Shows a transcript: the existing interim entry is removed first; a final transcript
     * becomes the user's message, any other is shown as the new interim entry. So at most one
     * interim entry stays on screen, and after a final transcript there is none.
     */
    method HandleTranscript(text: string, isFinal: bool)
      requires Valid()
      modifies this`conversation
      ensures Valid()
      ensures isFinal ==> conversation == RemoveFirstInterim(old(conversation)) + [Message("user", "You", text)]
      ensures isFinal ==> CountInterim(conversation) == 0
      ensures !isFinal ==> conversation == RemoveFirstInterim(old(conversation)) + [Interim(text)]
      ensures !isFinal ==> CountInterim(conversation) == 1
    {
      RemoveFirstInterimEffect(conversation);
      conversation := RemoveFirstInterim(conversation);
      if isFinal {
        AddMessage("user", text);
        CountInterimAppend(RemoveFirstInterim(old(conversation)), [Message("user", "You", text)]);
      } else {
        conversation := conversation + [Interim(text)];
        CountInterimAppend(RemoveFirstInterim(old(conversation)), [Interim(text)]);
      }
    }

    /** Shows the assistant's reply as a message. */
    method HandleResponse(text: string)
      requires Valid()
      modifies this`conversation
      ensures Valid()
      ensures conversation == old(conversation) + [Message("assistant", "Assistant", text)]
    {
      AddMessage("assistant", text);
    }

    /** Appends one labelled message; a message is never an interim entry. */
    method AddMessage(role: string, text: string)
      requires Valid()
      modifies this`conversation
      ensures Valid()
      ensures conversation == old(conversation) + [Message(role, Label(role), text)]
      ensures CountInterim(conversation) == CountInterim(old(conversation))
    {
      CountInterimAppend(conversation, [Message(role, Label(role), text)]);
      conversation := conversation + [Message(role, Label(role), text)];
    }

    method ShowError(message: string)
      modifies this`errorText, this`errorShown
      ensures errorText == message && errorShown
    {
      errorText := message;
      errorShown := true;
    }

    /** Hides the error line; its text stays. */
    method HideError()
      modifies this`errorShown
      ensures !errorShown
    {
      errorShown := false;
    }

    /**
     * Delivers one engine signal to the callback the controller installed for it; signals
     * that are calls into browser APIs have no UI callback.
     */
    method Deliver(signal: Signal)
      requires Valid()
      modifies this`display, this`conversation, this`errorText, this`errorShown
      ensures Valid()
      ensures signal.StatusChanged? ==> display == DisplayFor(StatusName(signal.status))
      ensures signal.TranscriptShown? && signal.isFinal ==>
                conversation == RemoveFirstInterim(old(conversation)) + [Message("user", "You", signal.text)]
      ensures signal.TranscriptShown? && !signal.isFinal ==>
                conversation == RemoveFirstInterim(old(conversation)) + [Interim(signal.text)]
      ensures signal.ResponseShown? ==>
                conversation == old(conversation) + [Message("assistant", "Assistant", signal.text)]
      ensures signal.ErrorShown? ==> errorText == signal.message && errorShown
      ensures !signal.StatusChanged? ==> display == old(display)
      ensures !signal.TranscriptShown? && !signal.ResponseShown? ==> conversation == old(conversation)
      ensures !signal.ErrorShown? ==> errorText == old(errorText) && errorShown == old(errorShown)
    {
      match signal
      case StatusChanged(status) => UpdateStatus(StatusName(status));
      case TranscriptShown(text, isFinal) => HandleTranscript(text, isFinal);
      case ResponseShown(text) => HandleResponse(text);
      case ErrorShown(message) => ShowError(message);
      case _ =>
    }
  }
}

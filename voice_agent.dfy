/**
 * The conversation engine of the voice widget (class VoiceAgent). Browser capabilities are
 * inputs: whether a speech recognizer exists, the recognizer's and the synthesizer's
 * callbacks (methods of the class), the voices the synthesizer offers, the outcome of each
 * fetch. The UI callbacks, the calls into the recognizer and the synthesizer, and the chat
 * post are appended, in order, to one trace of signals; the knowledge-document fetches are
 * not in the trace, their outcomes are the input of `LoadSystemContext`.
 */
module Agent {
  import opened JsValues

  const AnthropicUrl := "https://api.anthropic.com/v1/messages"
  const ProxyPath := "/api/chat"
  const DirectModel := "claude-3-opus-20240229"
  const DirectMaxTokens := 1024
  const AnthropicVersion := "2023-06-01"

  const UnsupportedMessage :=
    "Speech recognition is not supported in this browser. Please use Chrome, Edge, or Safari."
  const NotAvailableMessage := "Speech recognition not available"
  const CouldNotStartPrefix := "Could not start listening: "
  const NoSpeechMessage := "No speech detected. Please try again."
  const MicrophoneDeniedMessage := "Microphone access denied. Please allow microphone access."
  const GenericRecognitionMessage := "Speech recognition error"
  const ResponseErrorPrefix := "Error getting response: "
  const RequestFailed := "API request failed"
  const SynthesisErrorPrefix := "Speech synthesis error: "
  /** What the browser's engine reports when a property of `null` is read (V8's wording). */
  const NullBodyTypeError := "Cannot read properties of null (reading 'error')"

  /** The knowledge documents, in the order their bodies enter the context. */
  const KnowledgeFiles := ["1-company-overview.txt", "2-services-detailed.txt",
                           "3-aoda-compliance-info.txt", "4-faqs.txt", "5-contact-process.txt"]
  const ContextSeparator := "\n\n---\n\n"
  const ContextPreamble :=
    "You are a friendly and knowledgeable voice assistant for AI Advantage Solutions, " +
    "a company that helps Ontario housing providers with mixed income communities, " +
    "near market rentals, and AODA compliance.\n\n" +
    "Key guidelines for your responses:\n" +
    "- Be conversational and natural - you're having a voice conversation\n" +
    "- Keep responses concise (2-3 sentences max) since you're speaking aloud\n" +
    "- Be warm, professional, and helpful\n" +
    "- If you don't know something, be honest and offer to have someone contact them\n" +
    "- For complex questions, offer to send detailed information via email\n" +
    "- Always offer next steps (book a call, send an email, etc.)\n\n" +
    "Company Information:\n"
  const ContextClosing := "\n\nRemember: You're speaking, not writing, so be conversational and concise."

  datatype Status = Idle | Listening | Thinking | Speaking

  datatype Role = User | Assistant

  /** One `{role, content}` entry of the conversation history. */
  datatype Turn = Turn(role: Role, content: string)

  datatype Voice = Voice(name: string, lang: string)

  /** One recognition result, reduced to its first alternative's transcript and its finality. */
  datatype RecognitionResult = RecognitionResult(firstTranscript: string, isFinal: bool)

  /** An outbound chat request: where it goes, its headers and its JSON body's fields. */
  datatype Request = Request(
    endpoint: string,
    headers: seq<(string, string)>,
    system: string,
    messages: seq<Turn>,
    model: Option<string>,
    maxTokens: Option<int>)

  /**
   * What a chat fetch produced: an ok response whose first content block holds `text`, a
   * non-ok response whose body parsed to `errorBody`, or an exception (network failure, a body
   * that is not JSON, a reply whose `content` is missing or empty) with its message.
   */
  datatype FetchOutcome = Replied(text: string) | Rejected(errorBody: Json) | Threw(message: string)

  /** What fetching one knowledge document produced. */
  datatype DocumentFetch = Loaded(body: string) | NotOk | FetchThrew

  datatype Support = Support(supported: bool, speechRecognition: bool, speechSynthesis: bool)

  /** A callback into the UI, a call into the recognizer or the synthesizer, or the chat post. */
  datatype Signal =
    | StatusChanged(status: Status)
    | TranscriptShown(text: string, isFinal: bool)
    | ResponseShown(text: string)
    | ErrorShown(message: string)
    | RecognizerStartRequested
    | RecognizerStopped
    | SynthesisCancelled
    | SynthesisSpoken(text: string, voice: Option<Voice>)
    | Posted(request: Request)

  /** The endpoint is chosen by whether an API key was configured. */
  function EndpointFor(apiKey: string): (r: string)
    ensures r == AnthropicUrl <==> apiKey != ""
    ensures r == ProxyPath <==> apiKey == ""
  {
    if apiKey != "" then AnthropicUrl else ProxyPath
  }

  /**
   * The request for the current history: the body always carries `system` and `messages`;
   * only with a key are the key and version headers and the model and token budget added.
   */
  function RequestFor(endpoint: string, apiKey: string, system: string, messages: seq<Turn>): (r: Request)
    ensures r.endpoint == endpoint && r.system == system && r.messages == messages
    ensures |r.headers| >= 1 && r.headers[0] == ("Content-Type", "application/json")
    ensures r.model.Some? <==> apiKey != ""
    ensures r.maxTokens.Some? <==> apiKey != ""
    ensures apiKey == "" ==> |r.headers| == 1
    ensures apiKey != "" ==>
              r.model == Some(DirectModel) && r.maxTokens == Some(1024) &&
              ("x-api-key", apiKey) in r.headers && ("anthropic-version", AnthropicVersion) in r.headers
  {
    var content := [("Content-Type", "application/json")];
    if apiKey != "" then
      Request(endpoint, content + [("x-api-key", apiKey), ("anthropic-version", AnthropicVersion)],
              system, messages, Some(DirectModel), Some(DirectMaxTokens))
    else
      Request(endpoint, content, system, messages, None, None)
  }

  /** As long as the key is the one the engine was built with, direct-mode fields go with the direct URL. */
  lemma ModeIsConsistent(apiKey: string, system: string, messages: seq<Turn>)
    ensures var r := RequestFor(EndpointFor(apiKey), apiKey, system, messages);
      (r.endpoint == AnthropicUrl <==> r.model == Some(DirectModel)) &&
      (r.endpoint == ProxyPath <==> r.model.None? && r.maxTokens.None? && |r.headers| == 1)
  {
  }

  /**
   * The request as `processUserInput` actually sends it: the body is serialised before the
   * direct-mode fields are added to the body object, so the wire body never carries a model or
   * a token budget, while the headers (a live object) do carry the key and the version.
   */
  function SentRequest(endpoint: string, apiKey: string, system: string, messages: seq<Turn>): (r: Request)
    ensures r.model.None? && r.maxTokens.None?
    ensures r.endpoint == endpoint && r.system == system && r.messages == messages
    ensures r.headers == RequestFor(endpoint, apiKey, system, messages).headers
  {
    var intended := RequestFor(endpoint, apiKey, system, messages);
    intended.(model := None, maxTokens := None)
  }

  /**
   * In direct mode the request as written goes to the Anthropic URL with the key but without
   * the model and token budget the direct mode is meant to add; the intended request has both.
   */
  lemma DirectRequestOmitsModel(apiKey: string, system: string, messages: seq<Turn>)
    requires apiKey != ""
    ensures var sent := SentRequest(EndpointFor(apiKey), apiKey, system, messages);
            var intended := RequestFor(EndpointFor(apiKey), apiKey, system, messages);
      && sent.endpoint == AnthropicUrl && ("x-api-key", apiKey) in sent.headers
      && sent.model.None? && sent.maxTokens.None?
      && intended.model == Some(DirectModel) && intended.maxTokens == Some(DirectMaxTokens)
      && sent != intended
  {
  }

  /** The transcript of a result list: the first alternatives, concatenated in order. */
  function Transcript(results: seq<RecognitionResult>): string
  {
    if |results| == 0 then "" else results[0].firstTranscript + Transcript(results[1..])
  }

  /** Concatenation distributes over splitting the result list anywhere. */
  lemma {:induction false} TranscriptAppend(a: seq<RecognitionResult>, b: seq<RecognitionResult>)
    ensures Transcript(a + b) == Transcript(a) + Transcript(b)
  {
    if |a| == 0 {
      assert a + b == b;
    } else {
      assert (a + b)[1..] == a[1..] + b;
      TranscriptAppend(a[1..], b);
    }
  }

  /** The message shown for a recognition error code. */
  function RecognitionErrorMessage(code: string): (r: string)
    ensures r == NoSpeechMessage <==> code == "no-speech"
    ensures r == MicrophoneDeniedMessage <==> code == "not-allowed"
    ensures r == GenericRecognitionMessage <==> code != "no-speech" && code != "not-allowed"
  {
    if code == "no-speech" then NoSpeechMessage
    else if code == "not-allowed" then MicrophoneDeniedMessage
    else GenericRecognitionMessage
  }

  predicate IsEnglish(v: Voice)
  {
    StartsWith(v.lang, "en")
  }

  predicate IsPreferred(v: Voice)
  {
    IsEnglish(v) && (Contains(v.name, "Natural") || Contains(v.name, "Premium") || Contains(v.name, "Enhanced"))
  }

  /** `voices.find(p)` as an index: the first voice satisfying `p`. */
  function FirstWhere(voices: seq<Voice>, p: Voice -> bool): (r: Option<nat>)
    ensures r.Some? ==> r.value < |voices| && p(voices[r.value]) &&
                        forall j :: 0 <= j < r.value ==> !p(voices[j])
    ensures r.None? ==> forall j :: 0 <= j < |voices| ==> !p(voices[j])
  {
    if |voices| == 0 then None
    else if p(voices[0]) then Some(0)
    else
      var rest := FirstWhere(voices[1..], p);
      if rest.Some? then Some(rest.value + 1) else None
  }

  /** The voice `speak` assigns to its utterance (None: the synthesizer's default). */
  function ChooseVoice(voices: seq<Voice>): Option<Voice>
  {
    match FirstWhere(voices, IsPreferred)
    case Some(i) => Some(voices[i])
    case None =>
      match FirstWhere(voices, IsEnglish)
      case Some(i) => Some(voices[i])
      case None => None
  }

  /**
   * The selection rule: the first English voice with a Natural, Premium or Enhanced name;
   * failing that, the first English voice; failing that, none (the synthesizer's default).
   */
  lemma ChooseVoiceRule(voices: seq<Voice>)
    ensures var r := ChooseVoice(voices);
      && (r.Some? <==> exists i :: 0 <= i < |voices| && IsEnglish(voices[i]))
      && (r.Some? ==> IsEnglish(r.value) && r.value in voices)
      && ((exists i :: 0 <= i < |voices| && IsPreferred(voices[i])) ==>
            exists i :: 0 <= i < |voices| && r == Some(voices[i]) && IsPreferred(voices[i]) &&
                        forall j :: 0 <= j < i ==> !IsPreferred(voices[j]))
      && ((forall i :: 0 <= i < |voices| ==> !IsPreferred(voices[i])) && r.Some? ==>
            exists i :: 0 <= i < |voices| && r == Some(voices[i]) &&
                        forall j :: 0 <= j < i ==> !IsEnglish(voices[j]))
  {
    var p := FirstWhere(voices, IsPreferred);
    if p.Some? {
      assert IsPreferred(voices[p.value]);
    } else {
      var e := FirstWhere(voices, IsEnglish);
      if e.None? {
        assert forall i :: 0 <= i < |voices| ==> !IsEnglish(voices[i]);
      }
    }
  }

  /** The message a failed exchange reports after its prefix. */
  function FailureMessage(outcome: FetchOutcome): (r: string)
    requires !outcome.Replied?
    ensures outcome.Threw? ==> r == outcome.message
    ensures outcome.Rejected? && outcome.errorBody != JNull ==>
              var em := OptGet(Get(outcome.errorBody, "error"), "message");
              (Truthy(em) ==> r == ToJsString(em.value)) && (!Truthy(em) ==> r == RequestFailed)
  {
    match outcome
    case Threw(m) => m
    case Rejected(body) =>
      if body == JNull then NullBodyTypeError
      else
        var em := OptGet(Get(body, "error"), "message");
        if Truthy(em) then ToJsString(em.value) else RequestFailed
  }

  /** The bodies of the documents that loaded, in document order. */
  function LoadedBodies(fetches: seq<DocumentFetch>): (r: seq<string>)
    ensures |r| <= |fetches|
    ensures forall x :: x in r ==> Loaded(x) in fetches
  {
    if |fetches| == 0 then []
    else
      var last := fetches[|fetches| - 1];
      var init := LoadedBodies(fetches[..|fetches| - 1]);
      assert forall x :: Loaded(x) in fetches[..|fetches| - 1] ==> Loaded(x) in fetches;
      if last.Loaded? then init + [last.body] else init
  }

  /** Keeping the loaded bodies commutes with splitting the document list. */
  lemma {:induction false} LoadedBodiesAppend(a: seq<DocumentFetch>, b: seq<DocumentFetch>)
    ensures LoadedBodies(a + b) == LoadedBodies(a) + LoadedBodies(b)
  {
    if |b| == 0 {
      assert a + b == a;
    } else {
      assert (a + b)[..|a + b| - 1] == a + b[..|b| - 1];
      LoadedBodiesAppend(a, b[..|b| - 1]);
    }
  }

  /** Failed documents are skipped; when every document loads, every body is kept, in order. */
  lemma {:induction false} LoadedBodiesExtremes(fetches: seq<DocumentFetch>)
    ensures (forall i :: 0 <= i < |fetches| ==> !fetches[i].Loaded?) ==> LoadedBodies(fetches) == []
    ensures (forall i :: 0 <= i < |fetches| ==> fetches[i].Loaded?) ==>
              LoadedBodies(fetches) == seq(|fetches|, i requires 0 <= i < |fetches| => fetches[i].body)
  {
    if |fetches| > 0 {
      var init := fetches[..|fetches| - 1];
      LoadedBodiesExtremes(init);
      assert forall i :: 0 <= i < |init| ==> init[i] == fetches[i];
    }
  }

  /** The assembled context: fixed instructions around the loaded bodies joined by separators. */
  function ContextFrom(parts: seq<string>): string
  {
    ContextPreamble + JoinWith(parts, ContextSeparator) + ContextClosing
  }

  /** Which speech capabilities the environment offers; both are needed for the widget. */
  function BrowserSupport(hasRecognition: bool, hasSynthesis: bool): Support
  {
    Support(hasRecognition && hasSynthesis, hasRecognition, hasSynthesis)
  }

  /** The status most recently reported to the UI, if any. */
  function LastStatus(trace: seq<Signal>): Option<Status>
  {
    if |trace| == 0 then None
    else if trace[|trace| - 1].StatusChanged? then Some(trace[|trace| - 1].status)
    else LastStatus(trace[..|trace| - 1])
  }

  /** Signals appended after a status report decide the last status only if they report one. */
  lemma {:induction false} LastStatusAppend(a: seq<Signal>, b: seq<Signal>)
    ensures LastStatus(a + b) == if LastStatus(b).Some? then LastStatus(b) else LastStatus(a)
  {
    if |b| == 0 {
      assert a + b == a;
    } else {
      assert (a + b)[..|a + b| - 1] == a + b[..|b| - 1];
      LastStatusAppend(a, b[..|b| - 1]);
    }
  }

  /** What `speak` asks of the synthesizer: cancel what is playing, then queue the utterance. */
  function SpeakSignals(text: string, voices: seq<Voice>): seq<Signal>
  {
    [SynthesisCancelled, SynthesisSpoken(text, ChooseVoice(voices))]
  }

  /** The signals of one exchange, in the order `processUserInput` produces them. */
  function ExchangeSignals(request: Request, outcome: FetchOutcome, voices: seq<Voice>): seq<Signal>
  {
    var head := [StatusChanged(Thinking), Posted(request)];
    if outcome.Replied? then
      head + [ResponseShown(outcome.text)] + SpeakSignals(outcome.text, voices)
    else
      head + [ErrorShown(ResponseErrorPrefix + FailureMessage(outcome)), StatusChanged(Idle)]
  }

  /** The history after one exchange, as `processUserInput` leaves it. */
  function ExchangeHistory(history: seq<Turn>, userMessage: string, outcome: FetchOutcome): seq<Turn>
  {
    var withUser := history + [Turn(User, userMessage)];
    if outcome.Replied? then withUser + [Turn(Assistant, outcome.text)] else withUser
  }

  /**
   * One exchange: `thinking` is reported before the request is posted, and the request
   * carries the history with the user's turn already appended. On a reply exactly one
   * assistant turn holding the reply follows, the reply is shown and then spoken. On a
   * failure the history keeps only the new user turn, the error is reported with its prefix
   * and the last status reported is `idle`.
   */
  lemma ExchangeOutcome(history: seq<Turn>, userMessage: string, endpoint: string, apiKey: string,
                        system: string, outcome: FetchOutcome, voices: seq<Voice>)
    ensures var h := ExchangeHistory(history, userMessage, outcome);
            var request := SentRequest(endpoint, apiKey, system, history + [Turn(User, userMessage)]);
            var r := ExchangeSignals(request, outcome, voices);
      && |h| == |history| + (if outcome.Replied? then 2 else 1)
      && h[..|history| + 1] == history + [Turn(User, userMessage)] == request.messages
      && request.system == system && request.model.None? && request.maxTokens.None?
      && r[0] == StatusChanged(Thinking) && r[1] == Posted(request)
      && (outcome.Replied? ==>
            h[|history| + 1] == Turn(Assistant, outcome.text) &&
            r[2..] == [ResponseShown(outcome.text), SynthesisCancelled,
                       SynthesisSpoken(outcome.text, ChooseVoice(voices))])
      && (!outcome.Replied? ==>
            r[2..] == [ErrorShown(ResponseErrorPrefix + FailureMessage(outcome)), StatusChanged(Idle)] &&
            LastStatus(r) == Some(Idle))
  {
  }

  class VoiceAgent {
    var apiKey: string
    /** The endpoint is fixed when the engine is built. */
    const apiEndpoint: string
    /** Whether a speech recognizer could be created. */
    const hasRecognizer: bool
    var isListening: bool
    var isSpeaking: bool
    var conversationHistory: seq<Turn>
    var systemContext: string
    var trace: seq<Signal>

    /** Builds the engine; without a recognizer it reports that recognition is unsupported. */
    constructor(apiKey: string, recognitionSupported: bool)
      ensures this.apiKey == apiKey && apiEndpoint == EndpointFor(apiKey)
      ensures hasRecognizer == recognitionSupported
      ensures !isListening && !isSpeaking
      ensures conversationHistory == [] && systemContext == ""
      ensures trace == if recognitionSupported then [] else [ErrorShown(UnsupportedMessage)]
    {
      this.apiKey := apiKey;
      apiEndpoint := EndpointFor(apiKey);
      hasRecognizer := recognitionSupported;
      isListening, isSpeaking := false, false;
      conversationHistory, systemContext := [], "";
      trace := if recognitionSupported then [] else [ErrorShown(UnsupportedMessage)];
    }

    /** The recognizer started capturing. */
    method OnRecognitionStart()
      requires hasRecognizer
      modifies this
      ensures isListening
      ensures trace == old(trace) + [StatusChanged(Listening)]
      ensures apiKey == old(apiKey) && isSpeaking == old(isSpeaking)
      ensures conversationHistory == old(conversationHistory) && systemContext == old(systemContext)
    {
      isListening := true;
      trace := trace + [StatusChanged(Listening)];
    }

    /**
     * The recognizer delivered results: the transcript is always shown; only when the first
     * result is final is it sent as the user's turn (with `outcome` the fetch's result).
     */
    method OnRecognitionResult(results: seq<RecognitionResult>, outcome: FetchOutcome, voices: seq<Voice>)
      requires hasRecognizer && |results| > 0
      modifies this
      ensures !results[0].isFinal ==>
                conversationHistory == old(conversationHistory) &&
                trace == old(trace) + [TranscriptShown(Transcript(results), false)]
      ensures results[0].isFinal ==>
                conversationHistory == ExchangeHistory(old(conversationHistory), Transcript(results), outcome) &&
                trace == old(trace) + [TranscriptShown(Transcript(results), true)] +
                         ExchangeSignals(SentRequest(apiEndpoint, apiKey, systemContext,
                                                    old(conversationHistory) + [Turn(User, Transcript(results))]),
                                         outcome, voices)
      ensures apiKey == old(apiKey) && isListening == old(isListening) && isSpeaking == old(isSpeaking)
      ensures systemContext == old(systemContext)
    {
      var transcript := Transcript(results);
      trace := trace + [TranscriptShown(transcript, results[0].isFinal)];
      if results[0].isFinal {
        ProcessUserInput(transcript, outcome, voices);
      }
    }

    /** The recognizer failed: capture is over, `idle` is reported, then the error's message. */
    method OnRecognitionError(code: string)
      requires hasRecognizer
      modifies this
      ensures !isListening
      ensures trace == old(trace) + [StatusChanged(Idle), ErrorShown(RecognitionErrorMessage(code))]
      ensures apiKey == old(apiKey) && isSpeaking == old(isSpeaking)
      ensures conversationHistory == old(conversationHistory) && systemContext == old(systemContext)
    {
      isListening := false;
      trace := trace + [StatusChanged(Idle)];
      trace := trace + [ErrorShown(RecognitionErrorMessage(code))];
    }

    /** Capture ended: the reported status is `speaking` while an utterance plays, else `idle`. */
    method OnRecognitionEnd()
      requires hasRecognizer
      modifies this
      ensures !isListening
      ensures trace == old(trace) + [StatusChanged(if isSpeaking then Speaking else Idle)]
      ensures apiKey == old(apiKey) && isSpeaking == old(isSpeaking)
      ensures conversationHistory == old(conversationHistory) && systemContext == old(systemContext)
    {
      isListening := false;
      if isSpeaking {
        trace := trace + [StatusChanged(Speaking)];
      } else {
        trace := trace + [StatusChanged(Idle)];
      }
    }

    /**
     * Assembles the system context from the outcome of fetching each knowledge document,
     * in file order; a document that did not load is skipped.
     */
    method LoadSystemContext(fetches: seq<DocumentFetch>)
      requires |fetches| == |KnowledgeFiles|
      modifies this`systemContext
      ensures systemContext == ContextFrom(LoadedBodies(fetches))
    {
      var contextParts: seq<string> := [];
      var i := 0;
      while i < |fetches|
        invariant 0 <= i <= |fetches|
        invariant contextParts == LoadedBodies(fetches[..i])
      {
        assert fetches[..i + 1][..i] == fetches[..i];
        if fetches[i].Loaded? {
          contextParts := contextParts + [fetches[i].body];
        }
        i := i + 1;
      }
      assert fetches[..i] == fetches;
      systemContext := ContextFrom(contextParts);
    }

    /**
     * Start capturing: without a recognizer only an error is reported; while listening
     * nothing happens; a playing utterance is cancelled first; then the recognizer is
     * started, and if starting throws, its message is reported.
     */
    method StartListening(startError: Option<string>)
      modifies this
      ensures !hasRecognizer ==>
                trace == old(trace) + [ErrorShown(NotAvailableMessage)] && isSpeaking == old(isSpeaking)
      ensures hasRecognizer && old(isListening) ==>
                trace == old(trace) && isSpeaking == old(isSpeaking)
      ensures hasRecognizer && !old(isListening) ==>
                !isSpeaking &&
                trace == old(trace) + (if old(isSpeaking) then [SynthesisCancelled] else []) +
                         [RecognizerStartRequested] +
                         (if startError.Some? then [ErrorShown(CouldNotStartPrefix + startError.value)] else [])
      ensures isListening == old(isListening) && apiKey == old(apiKey)
      ensures conversationHistory == old(conversationHistory) && systemContext == old(systemContext)
    {
      if !hasRecognizer {
        trace := trace + [ErrorShown(NotAvailableMessage)];
        return;
      }
      if isListening {
        return;
      }
      if isSpeaking {
        trace := trace + [SynthesisCancelled];
        isSpeaking := false;
      }
      trace := trace + [RecognizerStartRequested];
      if startError.Some? {
        trace := trace + [ErrorShown(CouldNotStartPrefix + startError.value)];
      }
    }

    /** Asks the recognizer to stop, only when there is one and it is listening. */
    method StopListening()
      modifies this`trace
      ensures trace == old(trace) + (if hasRecognizer && isListening then [RecognizerStopped] else [])
    {
      if hasRecognizer && isListening {
        trace := trace + [RecognizerStopped];
      }
    }

    /**
     * Sends the user's message: `thinking` is reported, the user's turn is appended, the
     * request as the code sends it (the whole history and the current context, without the
     * direct-mode model and token budget; see `SentRequest`) is posted, and the outcome is
     * applied: a reply becomes the assistant's turn, is shown and spoken; a failure is reported.
     */
    method ProcessUserInput(userMessage: string, outcome: FetchOutcome, voices: seq<Voice>)
      modifies this
      ensures conversationHistory == ExchangeHistory(old(conversationHistory), userMessage, outcome)
      ensures trace == old(trace) +
                       ExchangeSignals(SentRequest(apiEndpoint, apiKey, systemContext,
                                                  old(conversationHistory) + [Turn(User, userMessage)]),
                                       outcome, voices)
      ensures apiKey == old(apiKey) && isListening == old(isListening) && isSpeaking == old(isSpeaking)
      ensures systemContext == old(systemContext)
    {
      ghost var trace0 := trace;
      trace := trace + [StatusChanged(Thinking)];
      conversationHistory := conversationHistory + [Turn(User, userMessage)];
      var request := SentRequest(apiEndpoint, apiKey, systemContext, conversationHistory);
      trace := trace + [Posted(request)];
      ghost var signals := ExchangeSignals(request, outcome, voices);
      if outcome.Replied? {
        var assistantMessage := outcome.text;
        conversationHistory := conversationHistory + [Turn(Assistant, assistantMessage)];
        trace := trace + [ResponseShown(assistantMessage)];
        Speak(assistantMessage, voices);
      } else {
        trace := trace + [ErrorShown(ResponseErrorPrefix + FailureMessage(outcome))];
        trace := trace + [StatusChanged(Idle)];
      }
      assert trace == trace0 + signals;
    }

    /** Cancels any playback and queues `text` with the voice the selection rule picks. */
    method Speak(text: string, voices: seq<Voice>)
      modifies this`trace
      ensures trace == old(trace) + SpeakSignals(text, voices)
    {
      trace := trace + [SynthesisCancelled];
      var preferredVoice := ChooseVoice(voices);
      trace := trace + [SynthesisSpoken(text, preferredVoice)];
    }

    /** The queued utterance started playing. */
    method OnUtteranceStart()
      modifies this
      ensures isSpeaking
      ensures trace == old(trace) + [StatusChanged(Speaking)]
      ensures apiKey == old(apiKey) && isListening == old(isListening)
      ensures conversationHistory == old(conversationHistory) && systemContext == old(systemContext)
    {
      isSpeaking := true;
      trace := trace + [StatusChanged(Speaking)];
    }

    /** The utterance finished. */
    method OnUtteranceEnd()
      modifies this
      ensures !isSpeaking
      ensures trace == old(trace) + [StatusChanged(Idle)]
      ensures apiKey == old(apiKey) && isListening == old(isListening)
      ensures conversationHistory == old(conversationHistory) && systemContext == old(systemContext)
    {
      isSpeaking := false;
      trace := trace + [StatusChanged(Idle)];
    }

    /** The utterance failed with the synthesizer's error code. */
    method OnUtteranceError(code: string)
      modifies this
      ensures !isSpeaking
      ensures trace == old(trace) + [StatusChanged(Idle), ErrorShown(SynthesisErrorPrefix + code)]
      ensures apiKey == old(apiKey) && isListening == old(isListening)
      ensures conversationHistory == old(conversationHistory) && systemContext == old(systemContext)
    {
      isSpeaking := false;
      trace := trace + [StatusChanged(Idle)];
      trace := trace + [ErrorShown(SynthesisErrorPrefix + code)];
    }

    /** Cancels playback and reports `idle`. */
    method StopSpeaking()
      modifies this`isSpeaking, this`trace
      ensures !isSpeaking
      ensures trace == old(trace) + [SynthesisCancelled, StatusChanged(Idle)]
    {
      trace := trace + [SynthesisCancelled];
      isSpeaking := false;
      trace := trace + [StatusChanged(Idle)];
    }

    /**
     * Clears the history, stops capture and playback and reports `idle`; the system context
     * is kept. Capture is only asked to stop: `isListening` drops when the recognizer ends.
     */
    method ResetConversation()
      modifies this
      ensures conversationHistory == [] && !isSpeaking
      ensures trace == old(trace) + (if hasRecognizer && old(isListening) then [RecognizerStopped] else []) +
                       [SynthesisCancelled, StatusChanged(Idle), StatusChanged(Idle)]
      ensures LastStatus(trace) == Some(Idle)
      ensures apiKey == old(apiKey) && isListening == old(isListening) && systemContext == old(systemContext)
    {
      conversationHistory := [];
      StopListening();
      StopSpeaking();
      trace := trace + [StatusChanged(Idle)];
    }

    /** Replaces the key; the endpoint chosen at construction stays. */
    method SetApiKey(apiKey: string)
      modifies this`apiKey
      ensures this.apiKey == apiKey
    {
      this.apiKey := apiKey;
    }
  }
}

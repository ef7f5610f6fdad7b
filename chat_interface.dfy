/** The chat of `frontend/pages/Dashboard/_components/ChatInterface.tsx`: a transcript that
    starts with a greeting in the chosen language, a single in-flight request guarded by
    `isLoading`, and the hand-off of every reply descriptor to the dashboard.

    `handleSend` is an `async` function that suspends once, on the reply. It is modelled as
    its two halves: `BeginSend` runs up to the request, `CompleteSend` is the continuation
    once the reply (or its failure) is known. Other events may happen in between; a send
    arriving then finds `isLoading` set and is dropped. `HandleSend` is the call with
    nothing in between. The session factory, the remote reply and `JSON.parse` come in as
    parameters: `Option<Session>` is `None` when `initializeChat` throws. */
module ChatInterface {
  import opened Text
  import opened Gemini
  import opened Dashboard

  datatype Sender = User | Bot

  /** One entry of the transcript. Ids come from the clock or are fixed strings; they are
      not unique. */
  datatype Message = Message(id: string, text: string, sender: Sender)

  /** An opaque handle on a conversation with the remote model. */
  datatype Session = Session(handle: nat)

  /** The language codes offered by the selector. */
  const SupportedLanguages: seq<string> := ["en", "hi", "ta", "te", "kn", "ml", "bn", "mr", "gu", "pa"]

  const EnglishGreeting: string := "Hello! I'm Springwell, your AI assistant for groundwater insights. How can I help you today? Try asking me to create a chart or show data on the map."

  /** The codes of the selector, one by one: the same ten as `SupportedLanguages`
      (`SelectableIffSupported`), written as comparisons so that proofs about the greeting
      need not search the sequence. */
  predicate Selectable(code: string) {
    || code == "en" || code == "hi" || code == "ta" || code == "te" || code == "kn"
    || code == "ml" || code == "bn" || code == "mr" || code == "gu" || code == "pa"
  }

  /** A code is selectable exactly when the selector lists it. */
  lemma SelectableIffSupported(code: string)
    ensures Selectable(code) <==> code in SupportedLanguages
  {
  }

  /** `uiStrings[language]?.greeting || uiStrings.en.greeting`: the table has a non-empty
      greeting for exactly the codes of the selector, so a selectable code gets its own and
      any other code the English one. */
  function Greeting(language: string): string {
    if language == "hi" then "नमस्ते! मैं स्प्रिंगवेल हूँ, भूजल संबंधी जानकारी के लिए आपका AI सहायक। मैं आज आपकी कैसे मदद कर सकता हूँ?"
    else if language == "ta" then "வணக்கம்! நான் ஸ்பிரிங்வெல், உங்கள் நிலத்தடி நீர் நுண்ணறிவுக்கான AI உதவியாளர். இன்று நான் உங்களுக்கு எப்படி உதவ முடியும்?"
    else if language == "te" then "నమస్కారం! నేను స్ప్రింగ్‌వెల్, భూగర్భజల అంతర్దృష్టుల కోసం మీ AI అసిస్టెంట్. ఈ రోజు నేను మీకు ఎలా సహాయపడగలను?"
    else if language == "kn" then "ನಮಸ್ಕಾರ! ನಾನು ಸ್ಪ್ರಿಂಗ್‌ವೆಲ್, ಅಂತರ್ಜಲ ಒಳನೋಟಗಳಿಗಾಗಿ ನಿಮ್ಮ AI ಸಹಾಯಕ. ಇಂದು ನಾನು ನಿಮಗೆ ಹೇಗೆ ಸಹಾಯ ಮಾಡಬಹುದು?"
    else if language == "ml" then "നമസ്കാരം! ഞാൻ സ്പ്രിംഗ്വെൽ, ഭൂഗർഭജല ഉൾക്കാഴ്ചകൾക്കായുള്ള നിങ്ങളുടെ AI അസിസ്റ്റന്റ്. ഇന്ന് ഞാൻ നിങ്ങളെ എങ്ങനെ സഹായിക്കും?"
    else if language == "bn" then "নমস্কার! আমি স্প্রিংওয়েল, ভূগর্ভস্থ জল সম্পর্কিত তথ্যের জন্য আপনার এআই সহকারী। আমি আজ আপনাকে কিভাবে সাহায্য করতে পারি?"
    else if language == "mr" then "नमस्कार! मी स्प्रिंगवेल, भूजल अंतर्दृष्टीसाठी तुमचा AI सहाय्यक आहे. मी आज तुम्हाला कशी मदत करू शकेन?"
    else if language == "gu" then "નમસ્તે! હું સ્પ્રિંગવેલ છું, ભૂગર્ભજળની આંતરદૃષ્ટિ માટે તમારો AI સહાયક. આજે હું તમને કેવી રીતે મદદ કરી શકું?"
    else if language == "pa" then "ਸਤ ਸ੍ਰੀ ਅਕਾਲ! ਮੈਂ ਸਪਰਿੰਗਵੈਲ ਹਾਂ, ਧਰਤੀ ਹੇਠਲੇ ਪਾਣੀ ਦੀ ਜਾਣਕਾਰੀ ਲਈ ਤੁਹਾਡਾ AI ਸਹਾਇਕ। ਮੈਂ ਅੱਜ ਤੁਹਾਡੀ ਕਿਵੇਂ ਮਦਦ ਕਰ ਸਕਦਾ ਹਾਂ?"
    else EnglishGreeting
  }

  /** A code the selector does not offer (a stale or hand-edited stored value) greets in
      English. */
  lemma UnknownCodeGreetsInEnglish(code: string)
    requires code !in SupportedLanguages
    ensures Greeting(code) == EnglishGreeting
  {
    SelectableIffSupported(code);
  }

  /** The language the chat starts in: the stored choice when it is a non-empty string,
      English otherwise. */
  function InitialLanguage(stored: Option<string>): (language: string)
    ensures Present(stored) ==> language == stored.value
    ensures !Present(stored) ==> language == "en"
  {
    if Present(stored) then stored.value else "en"
  }

  function GreetingMessage(language: string): Message {
    Message("1", Greeting(language), Bot)
  }

  const InitErrorMessage: Message :=
    Message("error-init", "Sorry, I couldn't connect to the AI service. Please check your API key and refresh the page.", Bot)

  const SendErrorMessage: Message :=
    Message("error-send", "Cannot send message. The AI service is not available.", Bot)

  const ReplyErrorText: string := "Sorry, I encountered an error trying to get a response. Please try again."

  /** The text a reply's message shows: an absent `responseText` renders as nothing. */
  function ShownText(o: Option<string>): (t: string)
    ensures o.Some? ==> t == o.value
    ensures o.None? ==> t == ""
  {
    match o
    case Some(v) => v
    case None => ""
  }

  /** What the transcript gains when a reply arrives: the reply's text, or, when the
      dashboard threw on a `null` reply, the fixed apology. */
  function ReplyMessage(bot: Parsed, botId: string): (m: Message)
    ensures m.id == botId && m.sender == Bot
    ensures bot.Null? ==> m.text == ReplyErrorText
    ensures bot.Value? && bot.d.responseText.Some? ==> m.text == bot.d.responseText.value
    ensures bot.Value? && bot.d.responseText.None? ==> m.text == ""
  {
    match bot
    case Value(d) => Message(botId, ShownText(d.responseText), Bot)
    case Null => Message(botId, ReplyErrorText, Bot)
  }

  /** A failed send or parse reaches the transcript as the client's fallback apology, not
      as the chat's own error message. */
  lemma FailedReplyShowsFallback(reply: Option<string>, parse: string -> Option<Parsed>, botId: string)
    requires reply.None? || parse(Clean(reply.value)).None?
    ensures ReplyMessage(GetAiResponse(reply, parse), botId).text == FallbackText
  {
  }

  class ChatController {
    var language: string
    /** The persisted language choice (one stored value at most). */
    var storedLanguage: Option<string>
    var messages: seq<Message>
    var inputValue: string
    var isLoading: bool
    /** The chat session reference; `None` until a session was created. */
    var session: Option<Session>
    /** The last initial prompt that was submitted. */
    var processedPrompt: Option<string>
    /** How many requests were sent to the remote model. */
    ghost var requests: nat

    /** The transcript always opens with the greeting of the current language, and that
        language is the persisted one. */
    ghost predicate Valid()
      reads this
    {
      && |messages| >= 1 && messages[0] == GreetingMessage(language)
      && storedLanguage == Some(language)
    }

    /** Mounting: the language is read from storage, then the language effect persists it,
        shows its greeting and creates the session; a failed creation adds the
        initialisation error after the greeting. */
    constructor(stored: Option<string>, init: Option<Session>)
      ensures Valid()
      ensures language == InitialLanguage(stored)
      ensures messages == [GreetingMessage(language)] + (if init.None? then [InitErrorMessage] else [])
      ensures session == init && !isLoading && inputValue == "" && processedPrompt.None? && requests == 0
    {
      language := InitialLanguage(stored);
      storedLanguage := Some(InitialLanguage(stored));
      messages := [GreetingMessage(InitialLanguage(stored))];
      inputValue := "";
      isLoading := false;
      processedPrompt := None;
      requests := 0;
      session := None;
      new;
      InitChat(init);
    }

    /** `initChat`: a created session replaces the reference; when creation throws the
        reference keeps its old value and the initialisation error is appended. */
    method InitChat(init: Option<Session>)
      requires Valid()
      modifies this
      ensures Valid()
      ensures init.Some? ==> session == init && messages == old(messages)
      ensures init.None? ==> session == old(session) && messages == old(messages) + [InitErrorMessage]
      ensures language == old(language) && storedLanguage == old(storedLanguage)
      ensures inputValue == old(inputValue) && isLoading == old(isLoading)
      ensures processedPrompt == old(processedPrompt) && requests == old(requests)
    {
      if init.Some? {
        session := init;
      } else {
        messages := messages + [InitErrorMessage];
      }
    }

    /** The language selector. Choosing the current language changes nothing; any other
        choice is persisted, resets the transcript to that language's greeting and
        re-creates the session (a failure appends the initialisation error). */
    method SetLanguage(lang: string, init: Option<Session>)
      requires Valid()
      modifies this
      ensures Valid()
      ensures lang == old(language) ==> unchanged(this)
      ensures lang != old(language) ==>
                && language == lang && storedLanguage == Some(lang)
                && messages == [GreetingMessage(lang)] + (if init.None? then [InitErrorMessage] else [])
                && session == (if init.Some? then init else old(session))
      ensures inputValue == old(inputValue) && isLoading == old(isLoading)
      ensures processedPrompt == old(processedPrompt) && requests == old(requests)
    {
      if lang == language {
        return;
      }
      language := lang;
      storedLanguage := Some(lang);
      messages := [GreetingMessage(lang)];
      InitChat(init);
    }

    /** Typing in the chat input. */
    method SetInput(v: string)
      requires Valid()
      modifies this
      ensures Valid()
      ensures inputValue == v
      ensures messages == old(messages) && isLoading == old(isLoading) && session == old(session)
      ensures language == old(language) && storedLanguage == old(storedLanguage)
      ensures processedPrompt == old(processedPrompt) && requests == old(requests)
    {
      inputValue := v;
    }

    /** The synchronous half of `handleSend`. A blank text, or a request already in flight,
        leaves everything as it was. Otherwise the untrimmed text is appended as the user's
        message, the input is cleared and loading starts; a missing session is created
        once more, and if there is still none, the initialisation error (from that attempt)
        and the send error are appended and loading stops without a request. `pending`
        says whether a request went out and its continuation is due. */
    method BeginSend(text: string, userId: string, reinit: Option<Session>) returns (pending: bool)
      requires Valid()
      modifies this
      ensures Valid()
      ensures IsBlank(text) || old(isLoading) ==> !pending && unchanged(this)
      ensures !IsBlank(text) && !old(isLoading) ==>
                var available := if old(session).Some? then old(session) else reinit;
                && inputValue == "" && session == available && pending == available.Some?
                && (pending ==>
                      && messages == old(messages) + [Message(userId, text, User)]
                      && isLoading && requests == old(requests) + 1)
                && (!pending ==>
                      && messages == old(messages) + [Message(userId, text, User), InitErrorMessage, SendErrorMessage]
                      && !isLoading && requests == old(requests))
      ensures language == old(language) && storedLanguage == old(storedLanguage)
      ensures processedPrompt == old(processedPrompt)
    {
      if IsBlank(text) || isLoading {
        return false;
      }
      var user := Message(userId, text, User);
      messages, inputValue, isLoading := messages + [user], "", true;
      if session.None? {
        InitChat(reinit);
      }
      if session.None? {
        isLoading, messages := false, messages + [SendErrorMessage];
        return false;
      }
      requests := requests + 1;
      pending := true;
    }

    /** The continuation of `handleSend` once the reply is known. The client's answer is
        handed to the dashboard once and its text appended; dispatching a `null` reply
        throws, so the dashboard is left alone and the apology appended instead. Either way
        loading stops. */
    method CompleteSend(reply: Option<string>, parse: string -> Option<Parsed>, botId: string,
                        chartId: string, dash: Dashboard)
      requires Valid() && isLoading && dash.Valid()
      modifies this, dash
      ensures Valid() && !isLoading && dash.Valid()
      ensures var bot := GetAiResponse(reply, parse);
              && messages == old(messages) + [ReplyMessage(bot, botId)]
              && (bot.Value? ==> dash.State() == Dispatch(old(dash.State()), bot.d, chartId))
              && (bot.Null? ==> dash.State() == old(dash.State()))
      ensures dash.chatKey == old(dash.chatKey)
      ensures session == old(session) && inputValue == old(inputValue)
      ensures language == old(language) && storedLanguage == old(storedLanguage)
      ensures processedPrompt == old(processedPrompt) && requests == old(requests)
    {
      var bot := GetAiResponse(reply, parse);
      if bot.Value? {
        dash.HandleAiAction(bot.d, chartId);
      }
      messages := messages + [ReplyMessage(bot, botId)];
      isLoading := false;
    }

    /** `handleSend` with nothing happening while the reply is awaited. Whatever path it
        takes, a call that was not dropped ends with loading off; when a request went out,
        the transcript gains exactly the user's message and then the reply's. */
    method HandleSend(text: string, userId: string, reinit: Option<Session>,
                      reply: Option<string>, parse: string -> Option<Parsed>, botId: string,
                      chartId: string, dash: Dashboard)
      requires Valid() && dash.Valid()
      modifies this, dash
      ensures Valid() && dash.Valid()
      ensures !old(isLoading) ==> !isLoading
      ensures IsBlank(text) || old(isLoading) ==> unchanged(this) && unchanged(dash)
      ensures !IsBlank(text) && !old(isLoading) ==>
                inputValue == "" && session == (if old(session).Some? then old(session) else reinit)
      ensures !IsBlank(text) && !old(isLoading) && (old(session).Some? || reinit.Some?) ==>
                && messages == old(messages) + [Message(userId, text, User),
                                                ReplyMessage(GetAiResponse(reply, parse), botId)]
                && requests == old(requests) + 1
                && var bot := GetAiResponse(reply, parse);
                   && (bot.Value? ==> dash.State() == Dispatch(old(dash.State()), bot.d, chartId))
                   && (bot.Null? ==> dash.State() == old(dash.State()))
      ensures !IsBlank(text) && !old(isLoading) && old(session).None? && reinit.None? ==>
                && messages == old(messages) + [Message(userId, text, User), InitErrorMessage, SendErrorMessage]
                && requests == old(requests) && dash.State() == old(dash.State())
      ensures language == old(language) && storedLanguage == old(storedLanguage)
      ensures processedPrompt == old(processedPrompt) && dash.chatKey == old(dash.chatKey)
      ensures old(messages) <= messages
    {
      var pending := BeginSend(text, userId, reinit);
      if pending {
        CompleteSend(reply, parse, botId, chartId, dash);
      }
    }

    /** The initial-prompt effect: a truthy prompt that differs from the last one processed
        is sent and remembered; the same prompt again is never re-sent. */
    method OnInitialPrompt(initialPrompt: Option<string>, userId: string, reinit: Option<Session>)
      returns (pending: bool)
      requires Valid()
      modifies this
      ensures Valid()
      ensures !Present(initialPrompt) || initialPrompt == old(processedPrompt) ==> !pending && unchanged(this)
      ensures Present(initialPrompt) && initialPrompt != old(processedPrompt) ==>
                && processedPrompt == initialPrompt
                && (IsBlank(initialPrompt.value) || old(isLoading) ==>
                      && !pending && messages == old(messages) && isLoading == old(isLoading)
                      && requests == old(requests) && inputValue == old(inputValue) && session == old(session))
                && (!IsBlank(initialPrompt.value) && !old(isLoading) ==>
                      var available := if old(session).Some? then old(session) else reinit;
                      && inputValue == "" && session == available && pending == available.Some?
                      && (pending ==>
                            && messages == old(messages) + [Message(userId, initialPrompt.value, User)]
                            && isLoading && requests == old(requests) + 1)
                      && (!pending ==>
                            && messages == old(messages) + [Message(userId, initialPrompt.value, User),
                                                            InitErrorMessage, SendErrorMessage]
                            && !isLoading && requests == old(requests)))
      ensures language == old(language) && storedLanguage == old(storedLanguage)
      ensures old(messages) <= messages
    {
      if Present(initialPrompt) && initialPrompt != processedPrompt {
        pending := BeginSend(initialPrompt.value, userId, reinit);
        processedPrompt := initialPrompt;
      } else {
        pending := false;
      }
    }
  }
}

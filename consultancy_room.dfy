/** The consultancy chat: the welcome message, the live-mode switch and
    the de-duplicating merge of live transcripts, and the send rules of a
    typed question with its asynchronous answer. `handleSend` is split at
    its await: SendBegin runs up to the request, SendFinish runs when the
    request settles (and after the spoken answer, when voice guidance is
    on). */
module ConsultancyRoom {
  import opened Types
  import GeminiService
  import LiveSession

  const ErrorText: string := "Conexão interrompida. Por favor, tente reformular "
    + "sua dúvida pedagógica."

  /** `needle` occurs in `hay` starting at index `i`. */
  predicate OccursAt(hay: string, needle: string, i: int)
  {
    0 <= i <= |hay| - |needle| && hay[i..i + |needle|] == needle
  }

  /** `hay.includes(needle)`. */
  predicate Contains(hay: string, needle: string)
  {
    exists i :: 0 <= i <= |hay| - |needle| && OccursAt(hay, needle, i)
  }

  lemma ContainsItself(s: string)
    ensures Contains(s, s)
  {
    assert OccursAt(s, s, 0);
  }

  /** The welcome message's wording, by language level: an opening, the
      tutor's name, a middle, the module title, a closing. */
  function WelcomeText(subject: Subject, simplified: bool): (t: string)
    ensures WelcomeOpening(simplified) + TutorName(subject) <= t
  {
    WelcomeOpening(simplified) + TutorName(subject) + WelcomeMiddle(simplified)
      + SubjectTitle(subject) + WelcomeClosing(simplified)
  }

  function WelcomeOpening(simplified: bool): string
  {
    if simplified then "Oi! Sou a Professora " else "SESSÃO DE MENTORIA ATIVA: Dra. "
  }

  function WelcomeMiddle(simplified: bool): string
  {
    if simplified then ". Estou aqui para te ajudar a entender tudo sobre "
    else " pronta para análise. \n\nEstamos focados no módulo de "
  }

  function WelcomeClosing(simplified: bool): string
  {
    if simplified then " de um jeito fácil. O que você quer descobrir hoje?"
    else ". Como posso guiar seu raciocínio jurídico-ambiental hoje?"
  }

  /** A string occurs at the end of anything it is appended to. */
  lemma ContainsAppended(s: string, x: string)
    ensures Contains(s + x, x)
  {
    assert (s + x)[|s|..|s| + |x|] == x;
    assert OccursAt(s + x, x, |s|);
  }

  /** An occurrence survives appending more text. */
  lemma ContainsExtended(s: string, t: string, x: string)
    requires Contains(s, x)
    ensures Contains(s + t, x)
  {
    var i :| 0 <= i <= |s| - |x| && OccursAt(s, x, i);
    assert (s + t)[i..i + |x|] == s[i..i + |x|];
    assert OccursAt(s + t, x, i);
  }

  /** Either wording introduces the tutor by name and names the module. */
  lemma WelcomeNamesTutorAndSubject(subject: Subject, simplified: bool)
    ensures Contains(WelcomeText(subject, simplified), TutorName(subject))
    ensures Contains(WelcomeText(subject, simplified), SubjectTitle(subject))
  {
    var a, name, b := WelcomeOpening(simplified), TutorName(subject), WelcomeMiddle(simplified);
    var title, c := SubjectTitle(subject), WelcomeClosing(simplified);
    ContainsAppended(a, name);
    ContainsExtended(a + name, b, name);
    ContainsExtended(a + name + b, title, name);
    ContainsExtended(a + name + b + title, c, name);
    ContainsAppended(a + name + b, title);
    ContainsExtended(a + name + b + title, c, title);
  }

  /** The message a transcript adds: a model line carries the tutor's name. */
  function TranscriptMessage(text: string, role: Role, tutorName: string): (m: ChatMessage)
    ensures m.role == role && m.text == text && m.grounding == None
    ensures m.tutor.Some? <==> role == Model
    ensures m.tutor.Some? ==> m.tutor.value == tutorName
  {
    ChatMessage(role, text, if role == Model then Some(tutorName) else None, None)
  }

  /** A transcript repeats the last line when that line has the same role
      and already contains the text. */
  predicate Repeats(messages: seq<ChatMessage>, text: string, role: Role)
  {
    |messages| > 0 && messages[|messages| - 1].role == role && Contains(messages[|messages| - 1].text, text)
  }

  /** The functional update the transcript callback applies to the list. */
  function MergeTranscript(messages: seq<ChatMessage>, text: string, role: Role, tutorName: string): (r: seq<ChatMessage>)
    ensures messages <= r && |r| <= |messages| + 1
    ensures r == messages <==> Repeats(messages, text, role)
    ensures !Repeats(messages, text, role) ==> r[|messages|] == TranscriptMessage(text, role, tutorName)
  {
    if Repeats(messages, text, role) then messages
    else messages + [TranscriptMessage(text, role, tutorName)]
  }

  /** A transcript delivered twice in a row is added once. */
  lemma MergeTranscriptAbsorbsRepeat(messages: seq<ChatMessage>, text: string, role: Role, tutorName: string)
    ensures var once := MergeTranscript(messages, text, role, tutorName);
      MergeTranscript(once, text, role, tutorName) == once
  {
    var once := MergeTranscript(messages, text, role, tutorName);
    if !Repeats(messages, text, role) {
      ContainsItself(text);
      assert once[|once| - 1].text == text;
    }
  }

  /** A shorter fragment of a line just added is absorbed as well. */
  lemma MergeTranscriptAbsorbsFragment(messages: seq<ChatMessage>, text: string, role: Role, tutorName: string, n: nat)
    requires n <= |text|
    ensures var once := MergeTranscript(messages + [TranscriptMessage(text, role, tutorName)], text[..n], role, tutorName);
      once == messages + [TranscriptMessage(text, role, tutorName)]
  {
    var ms := messages + [TranscriptMessage(text, role, tutorName)];
    assert OccursAt(ms[|ms| - 1].text, text[..n], 0);
  }

  /** The history sent with a question: each prior message as a turn of
      its role holding its text; tutor and grounding are dropped. */
  function History(messages: seq<ChatMessage>): (h: seq<GeminiService.Content>)
    ensures |h| == |messages|
    ensures forall i :: 0 <= i < |h| ==> h[i].role == messages[i].role && h[i].parts == [messages[i].text]
  {
    seq(|messages|, i requires 0 <= i < |messages| => GeminiService.Content(messages[i].role, [messages[i].text]))
  }

  /** Appending a question to the list appends its turn to the history. */
  lemma HistoryOfQuestion(messages: seq<ChatMessage>, text: string)
    ensures History(messages) + [GeminiService.Content(User, [text])]
      == History(messages + [ChatMessage(User, text, None, None)])
  {
    var ms := messages + [ChatMessage(User, text, None, None)];
    forall i | 0 <= i < |messages| ensures History(ms)[i] == History(messages)[i] {
      assert ms[i] == messages[i];
    }
  }

  /** The conversation a request carries, the prior history followed by
      the new question, is the history of the list the question was
      appended to. */
  lemma RequestCarriesConversation(messages: seq<ChatMessage>, text: string, subject: Subject, a11y: AccessibilityConfig)
    ensures GeminiService.ConsultancyRequest(text, subject, History(messages), a11y).contents
      == History(messages + [ChatMessage(User, text, None, None)])
  {
    HistoryOfQuestion(messages, text);
  }

  /** White space and line terminators as `String.prototype.trim` removes
      them (ECMA-262, sections 12.2 and 12.3). */
  predicate IsTrimmed(c: char)
  {
    || c == '\t' || c == '\U{B}' || c == '\U{C}' || c == ' ' || c == '\U{A0}' || c == '\U{FEFF}'
    || c == '\U{1680}' || ('\U{2000}' <= c <= '\U{200A}') || c == '\U{202F}' || c == '\U{205F}' || c == '\U{3000}'
    || c == '\n' || c == '\r' || c == '\U{2028}' || c == '\U{2029}'
  }

  /** The text with leading white space removed, as `trim` removes it. */
  function TrimStart(s: string): (r: string)
    ensures r == [] || !IsTrimmed(r[0])
    ensures |r| <= |s| && r == s[|s| - |r|..]
  {
    if s == [] then []
    else if IsTrimmed(s[0]) then TrimStart(s[1..])
    else s
  }

  /** `!s.trim()`: trimming leaves nothing, that is, every character is
      white space. */
  predicate IsBlank(s: string): (b: bool)
    ensures b <==> TrimStart(s) == []
  {
    TrimStartBlank(s);
    forall i :: 0 <= i < |s| ==> IsTrimmed(s[i])
  }

  lemma {:induction false} TrimStartBlank(s: string)
    ensures TrimStart(s) == [] <==> forall i :: 0 <= i < |s| ==> IsTrimmed(s[i])
    decreases |s|
  {
    if s != [] {
      TrimStartBlank(s[1..]);
      if IsTrimmed(s[0]) {
        forall i | 0 <= i < |s| && (forall j :: 0 <= j < |s[1..]| ==> IsTrimmed(s[1..][j]))
          ensures IsTrimmed(s[i])
        {
          if i > 0 {
            assert s[i] == s[1..][i - 1];
          }
        }
      }
    }
  }

  /** `customText || input`: the custom text wins unless absent or empty. */
  function ChosenText(customText: Option<string>, input: string): (t: string)
    ensures customText.Some? && customText.value != [] ==> t == customText.value
    ensures customText.None? || customText.value == [] ==> t == input
  {
    if customText.Some? && customText.value != [] then customText.value else input
  }

  /** The question a send passes on: the prompt and the prior history. */
  datatype SendRequest = SendRequest(prompt: string, history: seq<GeminiService.Content>)

  class ConsultancyRoom {
    const subject: Subject
    const a11y: AccessibilityConfig
    const live: LiveSession.GeminiLiveService
    const tts: GeminiService.GeminiService
    var messages: seq<ChatMessage>
    var input: string
    var isLoading: bool
    var isLive: bool
    var liveStatus: string

    ghost predicate Valid()
      reads this, live, tts
    {
      live.Valid() && tts.Valid()
    }

    constructor (subject: Subject, a11y: AccessibilityConfig, live: LiveSession.GeminiLiveService, tts: GeminiService.GeminiService)
      requires live.Valid() && tts.Valid()
      ensures Valid()
      ensures this.subject == subject && this.a11y == a11y && this.live == live && this.tts == tts
      ensures messages == [] && input == [] && !isLoading && !isLive && liveStatus == []
    {
      this.subject := subject;
      this.a11y := a11y;
      this.live := live;
      this.tts := tts;
      messages := [];
      input := [];
      isLoading := false;
      isLive := false;
      liveStatus := [];
    }

    /** The welcome effect: an empty list gets the tutor's greeting. */
    method Welcome()
      modifies this`messages
      ensures old(messages) != [] ==> messages == old(messages)
      ensures old(messages) == [] ==>
        messages == [ChatMessage(Model, WelcomeText(subject, a11y.simplifiedLanguage), Some(TutorName(subject)), None)]
    {
      if messages == [] {
        messages := [ChatMessage(Model, WelcomeText(subject, a11y.simplifiedLanguage), Some(TutorName(subject)), None)];
      }
    }

    /** `toggleLive`: leaving live mode disconnects and clears the status;
        entering it sets `isLive` first and then connects, so a denied
        microphone leaves `isLive` set with the error status shown. */
    method ToggleLive(micGranted: bool) returns (config: Option<LiveSession.LiveConfig>)
      requires Valid()
      modifies this`isLive, this`liveStatus, live
      ensures Valid()
      ensures isLive == !old(isLive)
      ensures old(isLive) ==>
        && config == None && liveStatus == [] && live.Disconnected()
        && live.inputAudioContext == old(live.inputAudioContext) && live.outputAudioContext == old(live.outputAudioContext)
        && live.openContexts == LiveSession.CloseContext(LiveSession.CloseContext(old(live.openContexts), old(live.inputAudioContext)), old(live.outputAudioContext))
        && live.liveStreams == old(live.liveStreams) - (if old(live.mediaStream).Some? then {old(live.mediaStream).value} else {})
        && live.nextId == old(live.nextId)
      ensures !old(isLive) && old(live.session).Some? ==> unchanged(live)
      ensures !old(isLive) && old(live.session).None? ==>
        && old(live.nextId) !in old(live.openContexts) && old(live.nextId) + 1 !in old(live.openContexts)
        && live.inputAudioContext == Some(LiveSession.AudioContext(old(live.nextId), LiveSession.InputSampleRate))
        && live.outputAudioContext == Some(LiveSession.AudioContext(old(live.nextId) + 1, LiveSession.OutputSampleRate))
        && live.openContexts == old(live.openContexts) + {old(live.nextId), old(live.nextId) + 1}
        && live.session == None && live.sources == old(live.sources) && live.nextStartTime == old(live.nextStartTime)
        && live.nextId == old(live.nextId) + (if micGranted then 3 else 2)
      ensures !old(isLive) && old(live.session).None? && !micGranted ==>
        live.mediaStream == old(live.mediaStream) && live.liveStreams == old(live.liveStreams)
      ensures !old(isLive) && old(live.session).None? && micGranted ==>
        && old(live.nextId) + 2 !in old(live.liveStreams)
        && live.mediaStream == Some(old(live.nextId) + 2) && live.liveStreams == old(live.liveStreams) + {old(live.nextId) + 2}
      ensures !old(isLive) && old(live.session).None? && !micGranted ==>
        config == None && liveStatus == LiveSession.StatusMicDenied
      ensures !old(isLive) && old(live.session).None? && micGranted ==>
        config == Some(LiveSession.LiveConfig(LiveSession.LiveInstruction(subject), LiveSession.VoiceName(subject)))
        && liveStatus == LiveSession.StatusConnecting
      ensures !old(isLive) && old(live.session).Some? ==> config == None && liveStatus == old(liveStatus)
    {
      if isLive {
        live.Disconnect();
        isLive := false;
        liveStatus := [];
        config := None;
      } else {
        isLive := true;
        var statuses;
        statuses, config := live.ConnectBegin(subject, micGranted);
        if statuses != [] {
          liveStatus := statuses[|statuses| - 1];
        }
      }
    }

    /** The status callback handed to `connect`. */
    method OnLiveStatus(status: string)
      modifies this`liveStatus
      ensures liveStatus == status
    {
      liveStatus := status;
    }

    /** The transcript callback handed to `connect`. */
    method OnTranscript(text: string, role: Role)
      modifies this`messages
      ensures messages == MergeTranscript(old(messages), text, role, TutorName(subject))
    {
      messages := MergeTranscript(messages, text, role, TutorName(subject));
    }

    /** `handleSend` up to the request. Nothing happens in live mode, for a
        blank text or while a request is pending. Otherwise the input is
        cleared, loading starts, any narration is stopped and the question
        is appended; the request carries only the earlier messages. */
    method SendBegin(customText: Option<string>) returns (request: Option<SendRequest>)
      requires Valid()
      modifies this`input, this`isLoading, this`messages, tts`activeSource, tts`playing
      ensures Valid()
      ensures request.None? <==> old(isLive) || IsBlank(ChosenText(customText, old(input))) || old(isLoading)
      ensures request.None? ==> unchanged(this) && unchanged(tts)
      ensures request.Some? ==>
        && request.value == SendRequest(ChosenText(customText, old(input)), History(old(messages)))
        && messages == old(messages) + [ChatMessage(User, ChosenText(customText, old(input)), None, None)]
        && input == [] && isLoading
        && tts.activeSource == None
        && tts.playing == old(tts.playing) - (if old(tts.activeSource).Some? then {old(tts.activeSource).value} else {})
        && tts.nextId == old(tts.nextId)
        && request.value.history + [GeminiService.Content(User, [request.value.prompt])] == History(messages)
    {
      if isLive {
        return None;
      }
      var textToSend := ChosenText(customText, input);
      if IsBlank(textToSend) || isLoading {
        return None;
      }
      input := [];
      isLoading := true;
      tts.Stop();
      var history := History(messages);
      HistoryOfQuestion(messages, textToSend);
      messages := messages + [ChatMessage(User, textToSend, None, None)];
      request := Some(SendRequest(textToSend, history));
    }

    /** `handleSend` after the request settles: the answer, with the
        tutor's name and its sources, or the fixed error line is appended;
        with voice guidance the answer is spoken first (speaking never
        fails). Loading ends either way. */
    method SendFinish(reply: Option<GeminiService.ModelResponse>, speech: GeminiService.SpeechReply, contextAvailable: bool)
      requires Valid()
      modifies this`messages, this`isLoading, tts`activeSource, tts`playing, tts`nextId
      ensures Valid()
      ensures !isLoading
      ensures |messages| == |old(messages)| + 1 && messages[..|old(messages)|] == old(messages)
      ensures reply.None? ==> messages[|old(messages)|] == ChatMessage(Model, ErrorText, Some(TutorName(subject)), None)
      ensures reply.Some? ==>
        var answer := GeminiService.ShapeResponse(reply.value);
        messages[|old(messages)|] == ChatMessage(Model, answer.text, Some(TutorName(subject)), Some(answer.grounding))
      ensures !(reply.Some? && a11y.voiceGuidance) ==> unchanged(tts)
      ensures reply.Some? && a11y.voiceGuidance ==>
        var stopped := if old(tts.activeSource).Some? then {old(tts.activeSource).value} else {};
        if GeminiService.Plays(speech, contextAvailable) then
          && old(tts.nextId) !in old(tts.playing)
          && tts.activeSource == Some(old(tts.nextId))
          && tts.playing == old(tts.playing) - stopped + {old(tts.nextId)}
          && tts.nextId == old(tts.nextId) + 1
        else
          && tts.activeSource == None
          && tts.playing == old(tts.playing) - stopped
          && tts.nextId == old(tts.nextId)
    {
      var response := GeminiService.AnalyzeConsultancy(reply);
      if response.Some? {
        messages := messages + [ChatMessage(Model, response.value.text, Some(TutorName(subject)), Some(response.value.grounding))];
        if a11y.voiceGuidance {
          var _ := tts.SpeakBegin(response.value.text);
          tts.SpeakFinish(speech, contextAvailable);
        }
      } else {
        messages := messages + [ChatMessage(Model, ErrorText, Some(TutorName(subject)), None)];
      }
      isLoading := false;
    }
  }
}

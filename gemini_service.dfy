/** The text and speech helpers of the tutoring service: the persona
    system instruction, the shaping of a consultancy answer, the cleaning of
    text before speech synthesis, and the single-active-source discipline
    of `speak` and `stop`. The remote model calls are inputs: a consultancy
    reply or a failure, a speech reply or a failure. */
module GeminiService {
  import opened Types
  import AudioCodec
  import Base64

  /** Persona prompt of each tutor, up to the language-level suffix: the
      opening words, the tutor's name, then the rest of the persona. */
  const GaiaPrompt: string := PersonaIntro + ("Gaia" + GaiaBody)
  const GaiaBody: string :=
    ", Mentora Sênior do IFAL. \n         POSTURA PEDAGÓGICA: "
      + "Siga o método socrático. Se o aluno perguntar 'O "
      + "que é EIA?', pergunte a ele qual o tamanho da obra "
      + "que ele imagina e como ela poderia afetar o solo. "
      + "Guie-o até a Resolução 001/86. \n         OBJETIVO: "
      + "Ensinar o biólogo a ser um perito crítico. Nunca "
      + "dê respostas de uma linha. Analise o contexto.\n "
      + "        ACESSIBILIDADE: Se houver dificuldade de "
      + "compreensão, use analogias visuais (ex: 'O EIA é "
      + "como um exame de sangue da natureza antes de uma "
      + "cirurgia').\n         "
  const SofiaPrompt: string := PersonaIntro + ("Sofia" + SofiaBody)
  const SofiaBody: string :=
    ", Mestra em Bioética e Legislação. \n         POSTURA "
      + "PEDAGÓGICA: Estimule o debate ético. Use dilemas. "
      + "Se o aluno estiver certo, desafie-o com um 'E se...?'. "
      + "Se estiver errado, mostre a contradição no raciocínio "
      + "dele com base nos 4 princípios da Bioética.\n   "
      + "      OBJETIVO: Formar profissionais com consciência "
      + "moral inabalável.\n         ACESSIBILIDADE: Seja "
      + "acolhedora e paciente. Use exemplos humanos e práticos.\n "
      + "        "

  /** Language-level suffixes, chosen by the simplified-language flag. */
  const SimplifiedSuffix: string :=
    "Use linguagem extremamente simples (nível fundamental), "
      + "evite termos latinos ou técnicos densos. Se usar "
      + "um termo técnico, explique-o com uma metáfora do "
      + "cotidiano."
  const TechnicalSuffix: string :=
    "Use terminologia jurídica e biológica de alto nível. "
      + "Cite jurisprudência, resoluções CONAMA ou CFBio "
      + "específicas."

  /** The text an answer falls back to when the model returns none. */
  const Placeholder: string := "Estou processando as diretrizes pedagógicas para você."

  /** The cap on the text sent to speech synthesis. */
  const SpeechLimit: nat := 800

  /** One turn of the conversation as the model receives it. */
  datatype Content = Content(role: Role, parts: seq<string>)

  /** The consultancy request: the conversation and the system instruction. */
  datatype Request = Request(contents: seq<Content>, systemInstruction: string)

  /** What the model returns, where present. */
  datatype ModelResponse = ModelResponse(text: Option<string>, grounding: Option<seq<GroundingChunk>>)

  /** What `analyzeConsultancy` resolves to. */
  datatype Analysis = Analysis(text: string, grounding: seq<GroundingChunk>)

  /** What the speech model returned: a failure, or a response holding a
      base64 audio payload or not. */
  datatype SpeechReply = SpeechFailed | SpeechResponse(audio: Option<string>)

  function PersonaPrompt(subject: Subject): (p: string)
    ensures PersonaIntro + TutorName(subject) <= p
  {
    if subject == AIA then GaiaPrompt else SofiaPrompt
  }

  function LanguageSuffix(a11y: AccessibilityConfig): (s: string)
    ensures s == SimplifiedSuffix <==> a11y.simplifiedLanguage
  {
    if a11y.simplifiedLanguage then SimplifiedSuffix else TechnicalSuffix
  }

  /** The system instruction: the tutor's persona, then the suffix chosen
      by the simplified-language flag. */
  function SystemInstruction(subject: Subject, a11y: AccessibilityConfig): (r: string)
    ensures PersonaPrompt(subject) <= r
    ensures r[|PersonaPrompt(subject)|..] == LanguageSuffix(a11y)
  {
    PersonaPrompt(subject) + LanguageSuffix(a11y)
  }

  /** The instruction names its tutor: it opens by addressing the model as
      Dra. Gaia exactly when the subject is AIA, and as Dra. Sofia exactly
      when it is Bioethics. */
  lemma SystemInstructionPersona(subject: Subject, a11y: AccessibilityConfig)
    ensures PersonaIntro + "Gaia" <= SystemInstruction(subject, a11y) <==> subject == AIA
    ensures PersonaIntro + "Sofia" <= SystemInstruction(subject, a11y) <==> subject == Bioethics
  {
    var r := SystemInstruction(subject, a11y);
    assert |PersonaIntro| == 14;
    if subject == AIA {
      assert r[14] == 'G' && (PersonaIntro + "Sofia")[14] == 'S';
    } else {
      assert r[14] == 'S' && (PersonaIntro + "Gaia")[14] == 'G';
    }
  }

  /** The consultancy request: the prior turns, then the prompt as a user
      turn, under the persona instruction. */
  function ConsultancyRequest(prompt: string, subject: Subject, history: seq<Content>, a11y: AccessibilityConfig): (req: Request)
    ensures |req.contents| == |history| + 1 && req.contents[..|history|] == history
    ensures req.contents[|history|] == Content(User, [prompt])
    ensures req.systemInstruction == SystemInstruction(subject, a11y)
  {
    Request(history + [Content(User, [prompt])], SystemInstruction(subject, a11y))
  }

  /** The answer built from a model response: an empty or absent text
      becomes the placeholder, absent grounding becomes the empty list. */
  function ShapeResponse(response: ModelResponse): (a: Analysis)
    ensures a.text != []
    ensures response.text.Some? && response.text.value != [] ==> a.text == response.text.value
    ensures response.text.None? || response.text.value == [] ==> a.text == Placeholder
    ensures response.grounding.Some? ==> a.grounding == response.grounding.value
    ensures response.grounding.None? ==> a.grounding == []
  {
    Analysis(
      if response.text.Some? && response.text.value != [] then response.text.value else Placeholder,
      if response.grounding.Some? then response.grounding.value else [])
  }

  /** `analyzeConsultancy` after its request settles: a failed request is
      rethrown (None), a response is shaped. */
  function AnalyzeConsultancy(reply: Option<ModelResponse>): (r: Option<Analysis>)
    ensures r.Some? <==> reply.Some?
    ensures r.Some? ==> r.value == ShapeResponse(reply.value)
  {
    match reply
    case None => None
    case Some(response) => Some(ShapeResponse(response))
  }

  predicate IsMarkup(c: char)
  {
    c == '*' || c == '#' || c == '_'
  }

  predicate MarkupFree(s: string)
  {
    forall i :: 0 <= i < |s| ==> !IsMarkup(s[i])
  }

  /** Every '*', '#' and '_' removed; everything else kept in order. */
  function StripMarkdown(s: string): (r: string)
    ensures |r| <= |s|
    ensures MarkupFree(r)
    ensures forall c :: c in r ==> c in s
    decreases |s|
  {
    if s == [] then []
    else if IsMarkup(s[0]) then StripMarkdown(s[1..])
    else [s[0]] + StripMarkdown(s[1..])
  }

  /** Stripping distributes over concatenation. */
  lemma {:induction false} StripMarkdownAppend(a: string, b: string)
    ensures StripMarkdown(a + b) == StripMarkdown(a) + StripMarkdown(b)
    decreases |a|
  {
    if a == [] {
      assert a + b == b;
    } else {
      assert (a + b)[0] == a[0];
      assert (a + b)[1..] == a[1..] + b;
      StripMarkdownAppend(a[1..], b);
    }
  }

  /** A markup-free string is left as it is, so stripping is idempotent. */
  lemma {:induction false} StripMarkdownKeepsClean(s: string)
    requires MarkupFree(s)
    ensures StripMarkdown(s) == s
    decreases |s|
  {
    if s != [] {
      StripMarkdownKeepsClean(s[1..]);
    }
  }

  /** A string of markup only strips to nothing. */
  lemma {:induction false} StripMarkdownOnlyMarkup(s: string)
    requires forall i :: 0 <= i < |s| ==> IsMarkup(s[i])
    ensures StripMarkdown(s) == []
    decreases |s|
  {
    if s != [] {
      StripMarkdownOnlyMarkup(s[1..]);
    }
  }

  /** The text sent to speech synthesis: markup removed first, then cut to
      the first 800 characters. */
  function CleanSpeechText(text: string): (r: string)
    ensures |r| <= SpeechLimit
    ensures MarkupFree(r)
    ensures r <= StripMarkdown(text)
    ensures |r| == if |StripMarkdown(text)| <= SpeechLimit then |StripMarkdown(text)| else SpeechLimit
  {
    var filtered := StripMarkdown(text);
    if |filtered| <= SpeechLimit then filtered else filtered[..SpeechLimit]
  }

  /** Cleaning twice is cleaning once. */
  lemma CleanSpeechTextIdempotent(text: string)
    ensures CleanSpeechText(CleanSpeechText(text)) == CleanSpeechText(text)
  {
    StripMarkdownKeepsClean(CleanSpeechText(text));
  }

  /** The order matters: 800 asterisks followed by a letter clean to that
      letter, where cutting before filtering would leave nothing. */
  lemma FilterBeforeTruncate()
    ensures var text := seq(800, _ => '*') + "a";
      && CleanSpeechText(text) == "a"
      && StripMarkdown(text[..SpeechLimit]) == []
  {
    var stars := seq(800, _ => '*');
    var text := stars + "a";
    StripMarkdownOnlyMarkup(stars);
    StripMarkdownAppend(stars, "a");
    assert text[..SpeechLimit] == stars;
  }

  /** Whether a speech reply leads to playback: a response with a
      non-empty payload, an audio context to play it in, and a payload that
      decodes to 24 kHz mono PCM. */
  predicate Plays(reply: SpeechReply, contextAvailable: bool): (b: bool)
    ensures b ==> contextAvailable && reply.SpeechResponse? && reply.audio.Some?
    ensures b ==> var bytes := Base64.Decode(reply.audio.value);
      bytes.Some? && |bytes.value| % 2 == 0 && |bytes.value| >= 2
  {
    && reply.SpeechResponse? && reply.audio.Some? && reply.audio.value != [] && contextAvailable
    && AudioCodec.AudioFromBase64(reply.audio.value, 24000, 1).Ok?
  }

  /** The sources started by `speak`: `activeSource`, and the set of those
      started and not stopped. `speak` is split at its await: SpeakBegin
      runs when it is called, SpeakFinish when the speech reply arrives. */
  class GeminiService {
    var activeSource: Option<nat>
    var playing: set<nat>
    var nextId: nat

    ghost predicate Valid()
      reads this
    {
      && (activeSource.Some? ==> activeSource.value in playing)
      && (forall s :: s in playing ==> s < nextId)
    }

    /** The single-source discipline: nothing sounds but the active source. */
    ghost predicate Single()
      reads this
    {
      forall s :: s in playing ==> activeSource == Some(s)
    }

    constructor ()
      ensures Valid() && Single()
      ensures activeSource == None && playing == {} && nextId == 0
    {
      activeSource := None;
      playing := {};
      nextId := 0;
    }

    /** `stop`: the active source, if any, is stopped and forgotten. */
    method Stop()
      requires Valid()
      modifies this`activeSource, this`playing
      ensures Valid()
      ensures activeSource == None
      ensures playing == old(playing) - (if old(activeSource).Some? then {old(activeSource).value} else {})
      ensures old(Single()) ==> playing == {}
      ensures old(activeSource).None? ==> unchanged(this)
    {
      if activeSource.Some? {
        playing := playing - {activeSource.value};
        activeSource := None;
      }
    }

    /** `speak` up to its request: the current source is stopped and the
        text is cleaned for synthesis. */
    method SpeakBegin(text: string) returns (cleanText: string)
      requires Valid()
      modifies this`activeSource, this`playing
      ensures Valid()
      ensures cleanText == CleanSpeechText(text)
      ensures activeSource == None
      ensures playing == old(playing) - (if old(activeSource).Some? then {old(activeSource).value} else {})
      ensures old(Single()) ==> Single() && playing == {}
      ensures old(activeSource).None? ==> unchanged(this)
    {
      Stop();
      cleanText := CleanSpeechText(text);
    }

    /** `speak` after the reply: a new source becomes active if the reply
        plays; every failure is swallowed, so there is no error result. The
        source that was active, if any, is not stopped here. */
    method SpeakFinish(reply: SpeechReply, contextAvailable: bool)
      requires Valid()
      modifies this`activeSource, this`playing, this`nextId
      ensures Valid()
      ensures Plays(reply, contextAvailable) ==>
        && old(nextId) !in old(playing)
        && activeSource == Some(old(nextId)) && playing == old(playing) + {old(nextId)}
        && nextId == old(nextId) + 1
      ensures !Plays(reply, contextAvailable) ==>
        activeSource == old(activeSource) && playing == old(playing) && nextId == old(nextId)
      ensures old(activeSource).None? && old(Single()) ==> Single()
    {
      if reply.SpeechResponse? && reply.audio.Some? && reply.audio.value != [] && contextAvailable {
        var bytes := AudioCodec.Decode(reply.audio.value);
        if bytes.None? {
          return;
        }
        var buffer := AudioCodec.DecodeAudioData(bytes.value, 24000, 1);
        if buffer.Err? {
          return;
        }
        activeSource := Some(nextId);
        playing := playing + {nextId};
        nextId := nextId + 1;
      }
    }
  }

  /** Two calls of `speak` whose replies arrive after both have begun: the
      second call's `stop` found nothing to stop, so both sources sound. */
  method OverlappingSpeaks(first: string, second: string, reply: SpeechReply) returns (sounding: nat)
    requires Plays(reply, true)
    ensures sounding == 2
  {
    var service := new GeminiService();
    var _ := service.SpeakBegin(first);
    var _ := service.SpeakBegin(second);
    service.SpeakFinish(reply, true);
    service.SpeakFinish(reply, true);
    assert service.playing == {0, 1};
    sounding := |service.playing|;
  }
}

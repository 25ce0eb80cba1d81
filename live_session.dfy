/** The live voice session: connection guards, the gapless playback
    scheduler (a start-time cursor and the set of playing sources), the
    interruption flush and disconnect. Asynchronous steps are separate
    methods, called in the order their events arrive; the audio clock's
    `currentTime` is an input. Web Audio graph plumbing is not modelled:
    a source is its identity, and starting or stopping it is recorded
    only through the `sources` set. */
module LiveSession {
  import opened Types
  import AudioCodec

  type SourceId = nat
  type StreamId = nat
  type SessionId = nat
  type ContextId = nat

  /** An audio context: its identity and its sample rate. Whether it is
      still open is recorded by the service (`openContexts`), so a context
      that is overwritten without `close()` stays open. */
  datatype AudioContext = AudioContext(id: ContextId, sampleRate: nat)

  /** The parts of a server message the service looks at. `audio` is
      `modelTurn.parts[0].inlineData.data`. */
  datatype ServerMessage = ServerMessage(
    inputTranscription: Option<string>,
    outputTranscription: Option<string>,
    audio: Option<string>,
    interrupted: bool)

  /** One call of the transcript callback. */
  datatype Transcript = Transcript(text: string, role: Role)

  /** A source started by the scheduler: when it starts and how long it plays. */
  datatype Scheduled = Scheduled(source: SourceId, start: real, duration: real)

  /** What `connect` hands to the remote service when it opens a session. */
  datatype LiveConfig = LiveConfig(systemInstruction: string, voiceName: string)

  const StatusConnecting: string := "Iniciando Conexão Segura..."
  const StatusMicDenied: string := "Erro: Microfone não autorizado."
  const StatusActive: string := "Sessão Ativa: Pode falar."

  const InputSampleRate: nat := 16000
  const OutputSampleRate: nat := 24000

  const GaiaLiveInstruction: string := PersonaIntro + ("Gaia" + GaiaLiveBody)
  const GaiaLiveBody: string :=
    ". Responda de forma técnica, curta "
      + "e direta em áudio. Fale sobre licenciamento, CONAMA "
      + "e IMA/AL. Você está em uma conversa por voz em tempo "
      + "real, seja natural."
  const SofiaLiveInstruction: string := PersonaIntro + ("Sofia" + SofiaLiveBody)
  const SofiaLiveBody: string :=
    ". Responda de forma ética e legal "
      + "em áudio. Fale sobre CFBio e legislação de biologia. "
      + "Você está em uma conversa por voz em tempo real, "
      + "seja natural."

  /** The persona of the voice session: Gaia for AIA, Sofia otherwise. */
  function LiveInstruction(subject: Subject): (s: string)
    ensures PersonaIntro + TutorName(subject) <= s
  {
    if subject == AIA then GaiaLiveInstruction else SofiaLiveInstruction
  }

  /** The prebuilt voice of the session: Kore speaks for Gaia, Puck for Sofia. */
  function VoiceName(subject: Subject): (v: string)
    ensures v == "Kore" <==> TutorName(subject) == "Gaia"
    ensures v == "Puck" <==> TutorName(subject) == "Sofia"
  {
    if subject == AIA then "Kore" else "Puck"
  }

  /** The transcript callbacks a message causes, in order: the user's
      words first, then the model's. */
  function Transcripts(msg: ServerMessage): (ts: seq<Transcript>)
    ensures |ts| == (if msg.inputTranscription.Some? then 1 else 0) + (if msg.outputTranscription.Some? then 1 else 0)
    ensures msg.inputTranscription.Some? ==> ts[0] == Transcript(msg.inputTranscription.value, User)
    ensures msg.outputTranscription.Some? ==> ts[|ts| - 1] == Transcript(msg.outputTranscription.value, Model)
  {
    (if msg.inputTranscription.Some? then [Transcript(msg.inputTranscription.value, User)] else [])
    + (if msg.outputTranscription.Some? then [Transcript(msg.outputTranscription.value, Model)] else [])
  }

  /** An audio payload counts only when it is truthy: present and not
      the empty string. */
  predicate HasAudio(msg: ServerMessage): (b: bool)
    ensures b <==> msg.audio.Some? && |msg.audio.value| > 0
  {
    msg.audio.Some? && msg.audio.value != ""
  }

  /** The buffer a base64 audio payload decodes to: 24 kHz mono PCM. */
  function DecodedChunk(b64: string): AudioCodec.Result<AudioCodec.AudioBuffer>
  {
    AudioCodec.AudioFromBase64(b64, OutputSampleRate, 1)
  }

  /** Where a chunk is placed: at the cursor, or at the clock if the cursor
      has fallen behind it. */
  function ChunkStart(cursor: real, currentTime: real): (start: real)
    ensures start >= cursor && start >= currentTime
    ensures start == cursor || start == currentTime
  {
    if cursor >= currentTime then cursor else currentTime
  }

  /** Start times of a run of chunks scheduled one after the other with no
      interruption in between, from an initial cursor, given the clock
      reading at each arrival and each chunk's duration. */
  function Starts(cursor: real, times: seq<real>, durations: seq<real>): (starts: seq<real>)
    requires |times| == |durations|
    ensures |starts| == |times|
    decreases |times|
  {
    if times == [] then []
    else
      var start := ChunkStart(cursor, times[0]);
      [start] + Starts(start + durations[0], times[1..], durations[1..])
  }

  /** Gapless, never early, never overlapping: each chunk starts no earlier
      than the clock at its arrival and no earlier than the end of the
      chunk before it. */
  lemma {:induction false} StartsNeverOverlap(cursor: real, times: seq<real>, durations: seq<real>)
    requires |times| == |durations|
    ensures var starts := Starts(cursor, times, durations);
      && (forall k :: 0 <= k < |times| ==> starts[k] >= times[k])
      && (forall k :: 0 <= k < |times| - 1 ==> starts[k + 1] >= starts[k] + durations[k])
      && (|times| > 0 ==> starts[0] >= cursor)
    decreases |times|
  {
    if times != [] {
      var start := ChunkStart(cursor, times[0]);
      var rest := Starts(start + durations[0], times[1..], durations[1..]);
      StartsNeverOverlap(start + durations[0], times[1..], durations[1..]);
      var starts := Starts(cursor, times, durations);
      assert starts == [start] + rest;
      forall k | 0 <= k < |times| ensures starts[k] >= times[k] {
        if k > 0 {
          assert starts[k] == rest[k - 1];
        }
      }
      forall k | 0 <= k < |times| - 1 ensures starts[k + 1] >= starts[k] + durations[k] {
        if k > 0 {
          assert starts[k] == rest[k - 1] && starts[k + 1] == rest[k];
        }
      }
    }
  }

  /** With a chunk arriving exactly as the previous one ends, the schedule
      has no gap: each start is the previous start plus its duration. */
  lemma {:induction false} StartsGapless(cursor: real, times: seq<real>, durations: seq<real>)
    requires |times| == |durations|
    requires |times| > 0 ==> times[0] <= cursor
    requires forall k :: 0 <= k < |times| - 1 ==> times[k + 1] <= Starts(cursor, times, durations)[k] + durations[k]
    ensures forall k :: 0 <= k < |times| - 1 ==> Starts(cursor, times, durations)[k + 1] == Starts(cursor, times, durations)[k] + durations[k]
    decreases |times|
  {
    if times != [] {
      var start := ChunkStart(cursor, times[0]);
      var starts := Starts(cursor, times, durations);
      var rest := Starts(start + durations[0], times[1..], durations[1..]);
      assert starts == [start] + rest;
      if |times| > 1 {
        assert times[1..][0] == times[1] <= start + durations[0];
        forall k | 0 <= k < |times[1..]| - 1
          ensures times[1..][k + 1] <= rest[k] + durations[1..][k]
        {
          assert starts[k + 1] == rest[k];
        }
      }
      StartsGapless(start + durations[0], times[1..], durations[1..]);
      forall k | 0 <= k < |times| - 1 ensures starts[k + 1] == starts[k] + durations[k] {
        if k > 0 {
          assert starts[k] == rest[k - 1] && starts[k + 1] == rest[k];
        }
      }
    }
  }

  /** The open contexts after `close()` on a held context, if there is one:
      that context is closed and no other is affected. */
  function CloseContext(open: set<ContextId>, ctx: Option<AudioContext>): (r: set<ContextId>)
    ensures r <= open
    ensures ctx.Some? ==> ctx.value.id !in r
    ensures forall c :: c in open && !(ctx.Some? && c == ctx.value.id) ==> c in r
    ensures ctx.None? || ctx.value.id !in open ==> r == open
  {
    match ctx
    case None => open
    case Some(c) => open - {c.id}
  }

  lemma CloseContextIdempotent(open: set<ContextId>, ctx: Option<AudioContext>)
    ensures CloseContext(CloseContext(open, ctx), ctx) == CloseContext(open, ctx)
  {
  }

  class GeminiLiveService {
    var session: Option<SessionId>
    var inputAudioContext: Option<AudioContext>
    var outputAudioContext: Option<AudioContext>
    var nextStartTime: real
    var sources: set<SourceId>
    var mediaStream: Option<StreamId>
    /** Microphone streams whose tracks have not been stopped. */
    var liveStreams: set<StreamId>
    /** Audio contexts created and not closed, held or not. */
    var openContexts: set<ContextId>
    /** Identities handed out so far to sources, streams and contexts. */
    var nextId: nat

    ghost predicate Valid()
      reads this
    {
      && (forall s :: s in sources ==> s < nextId)
      && (forall m :: m in liveStreams ==> m < nextId)
      && (mediaStream.Some? ==> mediaStream.value in liveStreams)
      && (forall c :: c in openContexts ==> c < nextId)
      && (inputAudioContext.Some? ==> inputAudioContext.value.id < nextId)
      && (outputAudioContext.Some? ==> outputAudioContext.value.id < nextId)
      && nextStartTime >= 0.0
    }

    /** All fields that `disconnect` resets are at rest. */
    ghost predicate Disconnected()
      reads this
    {
      && sources == {}
      && nextStartTime == 0.0
      && mediaStream == None
      && session == None
      && (inputAudioContext.Some? ==> inputAudioContext.value.id !in openContexts)
      && (outputAudioContext.Some? ==> outputAudioContext.value.id !in openContexts)
    }

    constructor ()
      ensures Valid()
      ensures session == None && inputAudioContext == None && outputAudioContext == None
      ensures nextStartTime == 0.0 && sources == {} && mediaStream == None && liveStreams == {}
      ensures openContexts == {} && nextId == 0
    {
      session := None;
      inputAudioContext := None;
      outputAudioContext := None;
      nextStartTime := 0.0;
      sources := {};
      mediaStream := None;
      liveStreams := {};
      openContexts := {};
      nextId := 0;
    }

    /** `connect` up to the call that opens the remote session. A no-op
        while a session is held; otherwise two new audio contexts replace
        the held ones (which are not closed), the microphone is requested,
        and on denial the error status is reported and no session is
        opened, while the new contexts stay open. The guard reads only
        `session`, which is set later by ConnectComplete, so a second call
        in between goes through again. `config` is Some exactly when a
        session is being opened. */
    method ConnectBegin(subject: Subject, micGranted: bool) returns (statuses: seq<string>, config: Option<LiveConfig>)
      requires Valid()
      modifies this
      ensures Valid()
      ensures old(session).Some? ==> statuses == [] && config == None && unchanged(this)
      ensures old(session).None? ==>
        && old(nextId) !in old(openContexts) && old(nextId) + 1 !in old(openContexts)
        && inputAudioContext == Some(AudioContext(old(nextId), InputSampleRate))
        && outputAudioContext == Some(AudioContext(old(nextId) + 1, OutputSampleRate))
        && openContexts == old(openContexts) + {old(nextId), old(nextId) + 1}
        && session == None && sources == old(sources) && nextStartTime == old(nextStartTime)
        && nextId == old(nextId) + (if micGranted then 3 else 2)
      ensures old(session).None? && !micGranted ==>
        && statuses == [StatusConnecting, StatusMicDenied] && config == None
        && mediaStream == old(mediaStream) && liveStreams == old(liveStreams)
      ensures old(session).None? && micGranted ==>
        && statuses == [StatusConnecting]
        && config == Some(LiveConfig(LiveInstruction(subject), VoiceName(subject)))
        && old(nextId) + 2 !in old(liveStreams)
        && mediaStream == Some(old(nextId) + 2) && liveStreams == old(liveStreams) + {old(nextId) + 2}
    {
      if session.Some? {
        return [], None;
      }
      statuses := [StatusConnecting];
      inputAudioContext := Some(AudioContext(nextId, InputSampleRate));
      outputAudioContext := Some(AudioContext(nextId + 1, OutputSampleRate));
      openContexts := openContexts + {nextId, nextId + 1};
      nextId := nextId + 2;
      if !micGranted {
        statuses := statuses + [StatusMicDenied];
        return statuses, None;
      }
      mediaStream := Some(nextId);
      liveStreams := liveStreams + {nextId};
      nextId := nextId + 1;
      config := Some(LiveConfig(LiveInstruction(subject), VoiceName(subject)));
    }

    /** The `onopen` callback: reports the active status (microphone
        streaming itself is not modelled). */
    method OnOpen() returns (status: string)
      ensures status == StatusActive
    {
      status := StatusActive;
    }

    /** The end of `connect`: the awaited session is stored. */
    method ConnectComplete(id: SessionId)
      requires Valid()
      modifies this`session
      ensures Valid()
      ensures session == Some(id)
    {
      session := Some(id);
    }

    /** The `onmessage` callback. Transcripts are reported first. A
        non-empty audio payload with an output context moves the cursor to
        `max(nextStartTime, currentTime)`; if the payload decodes, a new
        source starts there, the cursor advances by its duration and the
        source joins `sources`. If it does not decode, the handler throws
        at that point and the interruption flag is never looked at.
        Otherwise an interruption stops everything, including a chunk of
        the same message. */
    method OnMessage(msg: ServerMessage, currentTime: real) returns (transcripts: seq<Transcript>, scheduled: Option<Scheduled>)
      requires Valid() && currentTime >= 0.0
      modifies this`nextStartTime, this`sources, this`nextId
      ensures Valid()
      ensures transcripts == Transcripts(msg)
      ensures nextId == old(nextId) + (if scheduled.Some? then 1 else 0)
      ensures !(HasAudio(msg) && outputAudioContext.Some?) ==>
        && scheduled == None
        && (if msg.interrupted then sources == {} && nextStartTime == 0.0
            else sources == old(sources) && nextStartTime == old(nextStartTime))
      ensures HasAudio(msg) && outputAudioContext.Some? && DecodedChunk(msg.audio.value).Err? ==>
        && scheduled == None
        && sources == old(sources)
        && nextStartTime == ChunkStart(old(nextStartTime), currentTime)
      ensures HasAudio(msg) && outputAudioContext.Some? && DecodedChunk(msg.audio.value).Ok? ==>
        var buffer := DecodedChunk(msg.audio.value).value;
        && buffer.sampleRate == OutputSampleRate
        && old(nextId) !in old(sources)
        && scheduled == Some(Scheduled(old(nextId), ChunkStart(old(nextStartTime), currentTime), AudioCodec.Duration(buffer)))
        && (if msg.interrupted then sources == {} && nextStartTime == 0.0
            else && sources == old(sources) + {old(nextId)}
                 && nextStartTime == ChunkStart(old(nextStartTime), currentTime) + AudioCodec.Duration(buffer))
    {
      transcripts := Transcripts(msg);
      scheduled := None;
      if HasAudio(msg) && outputAudioContext.Some? {
        scheduled := PlayChunk(msg.audio.value, currentTime);
        if scheduled.None? {
          return;
        }
      }
      if msg.interrupted {
        var _ := StopAllAudio();
      }
    }

    /** The audio step of `onmessage`: the cursor moves to
        `max(nextStartTime, currentTime)`, then the payload is decoded; if
        that fails, nothing more happens (None). Otherwise a new source
        starts at the cursor, the cursor advances by its duration and the
        source joins `sources`. */
    method PlayChunk(b64: string, currentTime: real) returns (scheduled: Option<Scheduled>)
      requires Valid() && currentTime >= 0.0
      modifies this`nextStartTime, this`sources, this`nextId
      ensures Valid()
      ensures scheduled.None? <==> DecodedChunk(b64).Err?
      ensures scheduled.None? ==>
        && sources == old(sources) && nextId == old(nextId)
        && nextStartTime == ChunkStart(old(nextStartTime), currentTime)
      ensures scheduled.Some? ==>
        var buffer := DecodedChunk(b64).value;
        && buffer.sampleRate == OutputSampleRate
        && old(nextId) !in old(sources)
        && scheduled.value == Scheduled(old(nextId), ChunkStart(old(nextStartTime), currentTime), AudioCodec.Duration(buffer))
        && sources == old(sources) + {old(nextId)}
        && nextId == old(nextId) + 1
        && nextStartTime == ChunkStart(old(nextStartTime), currentTime) + AudioCodec.Duration(buffer)
    {
      nextStartTime := ChunkStart(nextStartTime, currentTime);
      var bytes := AudioCodec.Decode(b64);
      if bytes.None? {
        return None;
      }
      var audioBuffer := AudioCodec.DecodeAudioData(bytes.value, OutputSampleRate, 1);
      if audioBuffer.Err? {
        return None;
      }
      assert audioBuffer == DecodedChunk(b64);
      var source := nextId;
      nextId := nextId + 1;
      var duration := AudioCodec.Duration(audioBuffer.value);
      scheduled := Some(Scheduled(source, nextStartTime, duration));
      nextStartTime := nextStartTime + duration;
      sources := sources + {source};
    }

    /** A source's `onended`: it leaves the set. */
    method OnSourceEnded(source: SourceId)
      requires Valid()
      modifies this`sources
      ensures Valid()
      ensures sources == old(sources) - {source}
    {
      sources := sources - {source};
    }

    /** `stopAllAudio`: every source in the set is stopped, the set is
        emptied and the cursor goes back to 0 (not to the clock). */
    method StopAllAudio() returns (stopped: set<SourceId>)
      requires Valid()
      modifies this`sources, this`nextStartTime
      ensures Valid()
      ensures stopped == old(sources)
      ensures sources == {} && nextStartTime == 0.0
    {
      stopped := sources;
      sources := {};
      nextStartTime := 0.0;
    }

    /** `disconnect` (also the `onclose` callback): stops all audio, stops
        the microphone tracks, closes both held contexts and drops the
        session. The contexts stay held, and the remote session is only
        forgotten, not closed, so its messages still reach OnMessage. A
        second call changes nothing. */
    method Disconnect()
      requires Valid()
      modifies this
      ensures Valid()
      ensures Disconnected()
      ensures old(Disconnected()) ==> unchanged(this)
      ensures inputAudioContext == old(inputAudioContext) && outputAudioContext == old(outputAudioContext)
      ensures openContexts == CloseContext(CloseContext(old(openContexts), old(inputAudioContext)), old(outputAudioContext))
      ensures liveStreams == old(liveStreams) - (if old(mediaStream).Some? then {old(mediaStream).value} else {})
      ensures nextId == old(nextId)
    {
      var _ := StopAllAudio();
      if mediaStream.Some? {
        liveStreams := liveStreams - {mediaStream.value};
        mediaStream := None;
      }
      openContexts := CloseContext(openContexts, inputAudioContext);
      openContexts := CloseContext(openContexts, outputAudioContext);
      session := None;
    }
  }

  /** Two `connect` calls inside the connecting window both acquire the
      microphone; `disconnect` then stops only the second stream, and the
      first one's tracks stay live. */
  method ConnectingWindowLeaksStream(subject: Subject) returns (leaked: set<StreamId>)
    ensures |leaked| == 1
  {
    var service := new GeminiLiveService();
    var _, first := service.ConnectBegin(subject, true);
    var _, second := service.ConnectBegin(subject, true);
    assert first.Some? && second.Some?;
    service.Disconnect();
    leaked := service.liveStreams;
    assert leaked == {2};
  }

  /** A microphone denial opens no session and acquires no stream, but the
      two new audio contexts stay open. A later `connect` with the
      microphone granted goes ahead and replaces them without closing
      them, so after `disconnect` the first two are still open. */
  method DenialThenRetry(subject: Subject) returns (firstConfig: Option<LiveConfig>, retryConfig: Option<LiveConfig>, leaked: set<ContextId>)
    ensures firstConfig == None
    ensures retryConfig == Some(LiveConfig(LiveInstruction(subject), VoiceName(subject)))
    ensures |leaked| == 2
  {
    var service := new GeminiLiveService();
    var statuses;
    statuses, firstConfig := service.ConnectBegin(subject, false);
    assert statuses[|statuses| - 1] == StatusMicDenied;
    assert service.session == None && service.mediaStream == None;
    assert service.openContexts == {0, 1};
    statuses, retryConfig := service.ConnectBegin(subject, true);
    assert service.openContexts == {0, 1, 2, 3};
    service.Disconnect();
    leaked := service.openContexts;
    assert leaked == {0, 1};
  }

  /** `disconnect` does not close the remote session, so a message that
      still arrives with audio schedules a new source into the output
      context that `disconnect` closed. */
  method MessageAfterDisconnect(subject: Subject, b64: string) returns (scheduled: Option<Scheduled>, outputOpen: bool)
    requires b64 != "" && DecodedChunk(b64).Ok?
    ensures scheduled.Some? && !outputOpen
  {
    var service := new GeminiLiveService();
    var _, _ := service.ConnectBegin(subject, true);
    service.ConnectComplete(0);
    service.Disconnect();
    var msg := ServerMessage(None, None, Some(b64), false);
    var transcripts;
    transcripts, scheduled := service.OnMessage(msg, 0.0);
    outputOpen := service.outputAudioContext.value.id in service.openContexts;
  }

  /** Two audio chunks received one after the other by a fresh service are
      started where `Starts` places them, so the second begins no earlier
      than the end of the first. */
  method PlayTwoChunks(b1: string, b2: string, t1: real, t2: real) returns (first: Scheduled, second: Scheduled)
    requires t1 >= 0.0 && t2 >= 0.0
    requires DecodedChunk(b1).Ok? && DecodedChunk(b2).Ok?
    ensures [first.start, second.start] == Starts(0.0, [t1, t2], [first.duration, second.duration])
    ensures first.start >= t1 && second.start >= t2
    ensures second.start >= first.start + first.duration
  {
    var service := new GeminiLiveService();
    var s1 := service.PlayChunk(b1, t1);
    var s2 := service.PlayChunk(b2, t2);
    first, second := s1.value, s2.value;
    var times, durations := [t1, t2], [first.duration, second.duration];
    assert times[1..] == [t2] && durations[1..] == [second.duration];
    StartsNeverOverlap(0.0, times, durations);
  }
}

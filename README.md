# BioInterativo tutoring core, modelled in Dafny

BioInterativo is a web application for biology students. It has two
subjects: environmental impact assessment (AIA) and bioethics. Each subject
has a syllabus, a quiz, a chat with an AI tutor (Dra. Gaia or Dra. Sofia),
a real-time voice session with that tutor, and spoken narration. This
project models the logic behind those features:

- **The live voice service.** This covers four parts:
  - the codec loops: bytes to a Latin-1 binary string and then to base64, and back;
  - the 16-bit little-endian PCM framing of microphone samples;
  - the de-interleaving of incoming PCM into channels;
  - the gapless playback scheduler (a `nextStartTime` cursor and a set of playing sources), with the session, microphone and audio-context fields managed by `connect` and `disconnect`.
- **The quiz state machine.** Questions are answered once and scored on the spot, optionally against a 30-second clock, then advanced or completed.
- **The consultancy chat.** This covers the welcome message, the de-duplicating merge of live transcripts, and the guards and list updates of sending a question.
- **The text and speech service.** This covers the persona system instruction, the shaping of an answer, the markdown stripping and 800-character cap applied before speech, and the single-active-source discipline of `speak` and `stop`.
- **Application navigation.** This covers the back button, the quiz shortcut, the narration text and the choice of main screen.
- **Three small components.** These are the narration button's idle/loading/playing machine, the accessibility flag toggle, and the day/night theme toggle.

Each source file is one module. `Types` mirrors `types.ts`.

- **Base64.** `btoa` is RFC 4648 section 4 encoding. `atob` is the WHATWG Infra Standard's "forgiving-base64 decode".
- **Classes.** Components and services whose state changes step by step are classes. Their fields are the component's state variables or the service's fields. Each event handler is a method with a `modifies` clause. Each class has a `Valid()` invariant that its methods preserve; the narration button's says that it never shows playing without a reset timer armed.
- **Async handlers.** An `async` handler is split at its `await` into two methods. For example, `SendBegin` runs up to the request and `SendFinish` runs when it settles. `handleSend` awaits twice, for the answer and then for the speech; `SendFinish` folds both into one step, so the moment when the answer is already shown but `isLoading` is still true during the speech request is not modelled. Timers and audio callbacks are explicit event methods.
- **Outside inputs.** Remote replies, microphone permission, the audio clock and whether an audio context exists are parameters.

## Model

| member | source | states |
|---|---|---|
| Base64.AlphabetValue | services/geminiLiveService.ts:15 | the value `atob` gives an alphabet character is the one the RFC 4648 table encodes as that character |
| Base64.AlphabetRoundTrip | services/geminiLiveService.ts:11-15 | every sextet encodes to an alphabet character and decodes back to itself |
| Base64.Sextets | services/geminiLiveService.ts:11 | a byte string yields 4 sextets per full 3-byte group, plus 2 or 3 for a 1- or 2-byte tail |
| Base64.Encode | services/geminiLiveService.ts:11 | the `btoa` output for n bytes has 4 * ceil(n / 3) characters |
| Base64.RemoveWhitespace | services/geminiLiveService.ts:15 | the whitespace-free string `atob` decodes is no longer than its input and holds no ASCII whitespace |
| Base64.RemoveWhitespaceKeeps | services/geminiLiveService.ts:15 | a string without ASCII whitespace is left as it is |
| Base64.StripPadding | services/geminiLiveService.ts:15 | padding removal only shortens the string at its end |
| Base64.GroupRoundTrip | services/geminiLiveService.ts:11-15 | decoding the four sextets of three bytes gives those three bytes |
| Base64.SextetsRoundTrip | services/geminiLiveService.ts:11-15 | decoding the sextets of any byte string gives the bytes back (induction over 3-byte groups) |
| Base64.Decode | services/geminiLiveService.ts:15 | a decoded result has at most three bytes per four input characters |
| Base64.DecodeIgnoresWhitespace | services/geminiLiveService.ts:15 | removing ASCII whitespace from the input does not change what it decodes to |
| Base64.DecodeUnpadded | services/geminiLiveService.ts:15 | padding is optional: the encoding of any byte string without its trailing '=' decodes to those bytes |
| Base64.DecodeSextetsLength | services/geminiLiveService.ts:15 | n sextets stand for floor(6n / 8) bytes |
| Base64.SextetsLength | services/geminiLiveService.ts:11 | the encoder never leaves a single sextet over, so its output is always decodable |
| Base64.TailRoundTrip | services/geminiLiveService.ts:11-15 | a final one or two bytes round-trip through their two or three sextets |
| Base64.DecodeAfterGroup | services/geminiLiveService.ts:15 | a leading group of four sextets decodes on its own, ahead of the rest |
| Base64.EncodeDecodeRoundTrip | services/geminiLiveService.ts:11-15 | `atob` undoes `btoa`: decoding the encoding of any byte string succeeds and gives the bytes back |
| Base64.EncodeAlphabet | services/geminiLiveService.ts:11 | encoded text holds only alphabet characters, and '=' only in its last two positions |
| AudioCodec.BinaryString | services/geminiLiveService.ts:6-10 | the binary string has one character per byte, and each character's code is that byte |
| AudioCodec.CharCodes | services/geminiLiveService.ts:16-20 | one byte per character, equal to its code |
| AudioCodec.BinaryStringCodes | services/geminiLiveService.ts:5-22 | the binary string of bytes has only codes below 256, and its codes are the bytes |
| AudioCodec.Btoa | services/geminiLiveService.ts:11 | `btoa` succeeds exactly on strings whose codes are all below 256 |
| AudioCodec.Atob | services/geminiLiveService.ts:15 | what `atob` returns is a binary string |
| AudioCodec.AtobBtoa | services/geminiLiveService.ts:11-15 | `atob(btoa(s)) == s` for every binary string |
| AudioCodec.Encode | services/geminiLiveService.ts:5-12 | the loop builds the binary string of the bytes, and the result is its `btoa`, which is the RFC 4648 encoding of the bytes |
| AudioCodec.Decode | services/geminiLiveService.ts:14-22 | fails exactly when `atob` throws; otherwise it returns one byte per character of `atob`'s result, equal to its code, which is the forgiving-base64 decoding |
| AudioCodec.EncodeThenDecode | services/geminiLiveService.ts:5-22 | `decode(encode(b)) == b` for every byte string |
| AudioCodec.Int16FromBytes | services/geminiLiveService.ts:30 | the int16 of a little-endian byte pair is `lo + 256 * hi` modulo 2^16 |
| AudioCodec.BytesOfInt16 | services/geminiLiveService.ts:150 | the little-endian pair under an int16 reads back as that int16 |
| AudioCodec.BytesOfInt16FromBytes | services/geminiLiveService.ts:30 | the pair under the int16 read from a pair is that pair |
| AudioCodec.Int16View | services/geminiLiveService.ts:30 | an even-length buffer views as half as many int16 values |
| AudioCodec.LittleEndianBytes | services/geminiLiveService.ts:150 | the buffer of an Int16Array has two bytes per value |
| AudioCodec.ViewOfLittleEndian | services/geminiLiveService.ts:150 | viewing the buffer of an Int16Array gives its values back |
| AudioCodec.LittleEndianOfView | services/geminiLiveService.ts:30 | the buffer under the int16 view of an even-length byte string is that byte string |
| AudioCodec.Truncate | services/geminiLiveService.ts:147 | truncation toward zero: within one of x, on the side of zero |
| AudioCodec.ToInt16 | services/geminiLiveService.ts:147 | the stored int16 is the truncated value modulo 2^16; nothing is clamped |
| AudioCodec.ToInt16InRange | services/geminiLiveService.ts:147 | a value whose truncation fits in 16 bits is stored as that truncation |
| AudioCodec.FullScaleSampleWraps | services/geminiLiveService.ts:147 | a sample of exactly 1.0 is stored as -32768 |
| AudioCodec.UnitSampleFits | services/geminiLiveService.ts:147 | a sample in [-1, 1) is stored as the truncation of sample * 32768, without wrapping |
| AudioCodec.CreatePcmBlob | services/geminiLiveService.ts:144-153 | the mime type is always `audio/pcm;rate=16000`; the data decodes to exactly 2 * n bytes whose int16 value i is ToInt16(sample i * 32768) |
| AudioCodec.FrameIndexBound | services/geminiLiveService.ts:37 | the index `i * numChannels + channel` read by the loop lies inside the int16 view |
| AudioCodec.ChannelSample | services/geminiLiveService.ts:37 | every decoded sample lies in [-1, 1) |
| AudioCodec.DecodedAudio | services/geminiLiveService.ts:24-41 | the Int16Array view throws a RangeError exactly on an odd byte count; a produced buffer has the requested rate and channel count, and at least one frame per channel, with no more samples than int16 values |
| AudioCodec.DecodeAudioData | services/geminiLiveService.ts:24-41 | the loops produce exactly the result `DecodedAudio`, whose shape and samples are stated by `DecodedAudioShape` and `DecodedSample` |
| AudioCodec.DecodedAudioShape | services/geminiLiveService.ts:30-32 | a buffer is produced exactly when the byte count is even, 1 to 32 channels are asked for, there is at least one frame, and the rate is in [3000, 768000]; it then has `int16Count / numChannels` frames in each channel |
| AudioCodec.DecodedSample | services/geminiLiveService.ts:30-37 | sample i of channel c is int16 number `i * numChannels + c`, divided by 32768 |
| AudioCodec.DeinterleavedSample | services/geminiLiveService.ts:34-38 | the same, for the de-interleaving of any int16 sequence |
| AudioCodec.AudioFromBase64 | services/geminiLiveService.ts:95 | a payload `atob` rejects is an InvalidCharacterError; a produced buffer has the requested rate and channel count |
| AudioCodec.Duration | services/geminiLiveService.ts:100 | a buffer's duration is not negative, and duration times rate is its frame count |
| AudioCodec.MonoChunk | services/geminiLiveService.ts:95 | an even, non-empty payload decodes as 24 kHz mono to one channel holding every int16, in order, divided by 32768 |
| AudioCodec.PcmRoundTrip | services/geminiLiveService.ts:30-37 | framing the samples of a decoded mono chunk again (ToInt16 of sample * 32768, little-endian) gives back the original bytes |
| LiveSession.LiveInstruction | services/geminiLiveService.ts:71-73 | the voice instruction opens by addressing the model as the subject's tutor, Dra. Gaia or Dra. Sofia |
| LiveSession.VoiceName | services/geminiLiveService.ts:115 | Gaia speaks with the Kore voice and Sofia with Puck |
| LiveSession.HasAudio | services/geminiLiveService.ts:92-93 | a payload counts exactly when it is truthy: present and not the empty string |
| LiveSession.Transcripts | services/geminiLiveService.ts:84-89 | a message causes one user transcript per input transcription, then one model transcript per output transcription, in that order |
| LiveSession.ChunkStart | services/geminiLiveService.ts:94 | a chunk starts at the later of the cursor and the clock |
| LiveSession.Starts | services/geminiLiveService.ts:94-100 | one start time per chunk in an uninterrupted run |
| LiveSession.StartsNeverOverlap | services/geminiLiveService.ts:94-100 | no chunk starts before the clock at its arrival or before the initial cursor, and each starts no earlier than the previous start plus the previous duration |
| LiveSession.StartsGapless | services/geminiLiveService.ts:94-100 | when each chunk arrives before the previous one ends, the chunks follow each other with no gap |
| LiveSession.CloseContext | services/geminiLiveService.ts:167-168 | `close()` on a held context removes it from the open contexts and affects no other; with none held, or one already closed, nothing changes |
| LiveSession.CloseContextIdempotent | services/geminiLiveService.ts:167-168 | closing twice is closing once |
| LiveSession.GeminiLiveService.constructor | services/geminiLiveService.ts:44-50 | no session, no contexts and none open, no stream, cursor 0, no sources |
| LiveSession.GeminiLiveService.ConnectBegin | services/geminiLiveService.ts:56-124 | no-op while a session is held; otherwise it creates fresh, open 16 kHz and 24 kHz contexts that replace the held ones without closing them, and reports the connecting status; on microphone denial it reports the error and stops, opening no session, acquiring no stream, keeping any stream already held, and leaving the new contexts open; when granted it holds a fresh stream and asks for the subject's instruction and voice |
| LiveSession.GeminiLiveService.OnOpen | services/geminiLiveService.ts:78-81 | reports the active-session status |
| LiveSession.GeminiLiveService.ConnectComplete | services/geminiLiveService.ts:123 | the session is stored only once the connection resolves |
| LiveSession.GeminiLiveService.OnMessage | services/geminiLiveService.ts:82-108 | transcripts first; a payload moves the cursor to max(cursor, clock); a decoded chunk joins the sources and advances the cursor by its duration; a payload that fails to decode ends the handler before the interruption flag is read; otherwise an interruption empties the sources and resets the cursor to 0, including the chunk just scheduled; the id counter advances by one exactly when a source is scheduled |
| LiveSession.GeminiLiveService.PlayChunk | services/geminiLiveService.ts:92-103 | schedules a source exactly when the payload decodes: a fresh source starts at max(cursor, clock), the cursor advances by its duration, the source joins the set and the id counter advances by one; a failed decode leaves the sources and the counter unchanged |
| LiveSession.GeminiLiveService.OnSourceEnded | services/geminiLiveService.ts:102 | an ended source leaves the set, and nothing else does |
| LiveSession.GeminiLiveService.StopAllAudio | services/geminiLiveService.ts:155-159 | every source is stopped, the set is empty and the cursor is 0, not the clock |
| LiveSession.GeminiLiveService.Disconnect | services/geminiLiveService.ts:161-170 | no sources, cursor 0, no stream, no session; both held contexts are closed but stay held, and no other context is closed; the held stream's tracks are stopped; a second call changes nothing |
| LiveSession.ConnectingWindowLeaksStream | services/geminiLiveService.ts:57-123 | two `connect` calls before the first resolves both acquire the microphone, and `disconnect` leaves one stream's tracks live |
| LiveSession.DenialThenRetry | services/geminiLiveService.ts:57-69 | a denial opens no session, but its two contexts stay open; a later granted `connect` goes ahead, and after `disconnect` the two contexts of the denied attempt are still open |
| LiveSession.MessageAfterDisconnect | services/geminiLiveService.ts:92-103 | `disconnect` forgets the remote session without closing it, so a later audio message still schedules a source, into the closed output context |
| LiveSession.PlayTwoChunks | services/geminiLiveService.ts:92-103 | two chunks played by the service start where `Starts` places them: each no earlier than the clock at its arrival, the second no earlier than the end of the first |
| QuizGame.CountCorrect | components/QuizGame.tsx:34-36 | the running score never exceeds the number of answers |
| QuizGame.CorrectPositions | components/QuizGame.tsx:34-36 | the positions whose answer is the question's correct answer |
| QuizGame.CountCorrectIsCardinality | components/QuizGame.tsx:34-36 | the running score is the number of correctly answered questions |
| QuizGame.CompletionTotalAsWritten | components/QuizGame.tsx:50 | the reported total is the score plus one exactly when the last selection is correct |
| QuizGame.CompletionTotal | components/QuizGame.tsx:50 | corrected total: at most the number of answers |
| QuizGame.CompletionTotalCountsEachOnce | components/QuizGame.tsx:50 | the corrected total counts each correctly answered question once |
| QuizGame.CompletionAsWrittenOvercounts | components/QuizGame.tsx:36-50 | with the last answer correct, the total as written is the true count plus one |
| QuizGame.QuizGame.Current | components/QuizGame.tsx:19 | the current question exists and its correct answer indexes one of its options |
| QuizGame.QuizGame.constructor | components/QuizGame.tsx:13-17 | first question, score 0, nothing selected, 30 seconds |
| QuizGame.QuizGame.HandleOptionSelect | components/QuizGame.tsx:30-40 | no-op once answered; otherwise it records the selection, adds one to the score exactly when correct, and keeps the score equal to the number of correct answers |
| QuizGame.QuizGame.Tick | components/QuizGame.tsx:21-28 | the clock counts down only in game mode while unanswered and never below 0; reaching 0 answers -1, scored as wrong, since no correct answer is negative |
| QuizGame.QuizGame.NextQuestion | components/QuizGame.tsx:42-52 | before the last question it advances, clears the selection, resets the clock to 30 and keeps the score; on the last it reports the score plus one more for a correct last answer, so that answer is counted twice |
| QuizGame.DoubleCountWitness | components/QuizGame.tsx:50 | a one-question quiz answered correctly reports 2 |
| ConsultancyRoom.WelcomeText | components/ConsultancyRoom.tsx:30-32 | each wording opens with its greeting followed by the tutor's name |
| ConsultancyRoom.WelcomeNamesTutorAndSubject | components/ConsultancyRoom.tsx:30-32 | both wordings of the greeting name the tutor and the module |
| ConsultancyRoom.TranscriptMessage | components/ConsultancyRoom.tsx:50 | the added message has the transcript's role and text, and the tutor's name exactly when the role is model |
| ConsultancyRoom.MergeTranscript | components/ConsultancyRoom.tsx:47-51 | the list is kept unchanged exactly when its last message has the same role and contains the text; otherwise exactly that message is appended; earlier messages are never touched |
| ConsultancyRoom.MergeTranscriptAbsorbsRepeat | components/ConsultancyRoom.tsx:47-51 | a transcript delivered twice in a row is added once |
| ConsultancyRoom.MergeTranscriptAbsorbsFragment | components/ConsultancyRoom.tsx:49 | a prefix of the line just added is absorbed |
| ConsultancyRoom.History | components/ConsultancyRoom.tsx:70-73 | one turn per prior message, with its role and its text as the only part |
| ConsultancyRoom.HistoryOfQuestion | components/ConsultancyRoom.tsx:65-72 | the history of the list with the question appended is the prior history followed by the question's user turn |
| ConsultancyRoom.RequestCarriesConversation | services/geminiService.ts:63-71 | the conversation sent to the model is the history of the message list with the question appended |
| ConsultancyRoom.TrimStart | components/ConsultancyRoom.tsx:59 | the leading white space removed by `trim`: the rest starts with a non-space character and is a suffix of the text |
| ConsultancyRoom.IsBlank | components/ConsultancyRoom.tsx:59 | `!text.trim()`: true exactly when trimming leaves nothing |
| ConsultancyRoom.TrimStartBlank | components/ConsultancyRoom.tsx:59 | trimming leaves nothing exactly when every character is white space |
| ConsultancyRoom.ChosenText | components/ConsultancyRoom.tsx:58 | the custom text wins unless it is absent or empty |
| ConsultancyRoom.ConsultancyRoom.constructor | components/ConsultancyRoom.tsx:14-19 | no messages, empty input, not loading, not live, no status |
| ConsultancyRoom.ConsultancyRoom.Welcome | components/ConsultancyRoom.tsx:27-36 | an empty list gets the single greeting, worded by the simplified-language flag; a non-empty list is kept |
| ConsultancyRoom.ConsultancyRoom.ToggleLive | components/ConsultancyRoom.tsx:38-54 | leaving live mode clears the status and disconnects: the held stream's tracks are stopped, the two held contexts and no others are closed, and the session is dropped; entering sets `isLive` and connects: with no session held, two fresh open contexts replace the held ones, and a granted microphone adds a fresh live stream while a denial leaves `isLive` set with the error status and the streams unchanged; with a session held the live service is untouched |
| ConsultancyRoom.ConsultancyRoom.OnLiveStatus | components/ConsultancyRoom.tsx:52 | the status shown is the last one reported |
| ConsultancyRoom.ConsultancyRoom.OnTranscript | components/ConsultancyRoom.tsx:46-51 | the list becomes its merge with the transcript |
| ConsultancyRoom.ConsultancyRoom.SendBegin | components/ConsultancyRoom.tsx:56-75 | nothing happens exactly when live, when the chosen text is blank after trimming, or while loading; otherwise the input is cleared, loading starts, the active narration source is stopped and removed from the sounding set, the question is appended, and the request carries the earlier messages, which with the question make up the history of the new list |
| ConsultancyRoom.ConsultancyRoom.SendFinish | components/ConsultancyRoom.tsx:75-92 | exactly one message is appended: the shaped answer with the tutor's name and its sources, or the fixed error line; loading ends either way; with voice guidance the active narration source is stopped and removed from the sounding set, and a reply that plays adds a fresh source that becomes the active one; otherwise narration is untouched |
| GeminiService.PersonaPrompt | services/geminiService.ts:50-60 | the persona prompt opens by addressing the model by the subject's tutor's name |
| GeminiService.LanguageSuffix | services/geminiService.ts:46-48 | the simplified suffix exactly when simplified language is on |
| GeminiService.SystemInstruction | services/geminiService.ts:50-60 | the persona prompt followed by exactly the suffix chosen by the flag |
| GeminiService.SystemInstructionPersona | services/geminiService.ts:50-60 | the instruction addresses Dra. Gaia exactly when the subject is AIA, and Dra. Sofia exactly when it is bioethics |
| GeminiService.ConsultancyRequest | services/geminiService.ts:63-71 | the history, then the prompt as one user turn, under the system instruction |
| GeminiService.ShapeResponse | services/geminiService.ts:73-76 | the text falls back to the placeholder when absent or empty and is never empty; grounding defaults to `[]` |
| GeminiService.AnalyzeConsultancy | services/geminiService.ts:62-80 | a failed request is rethrown; a response is shaped |
| GeminiService.StripMarkdown | services/geminiService.ts:86 | the result holds no '*', '#' or '_', no new character, and is not longer |
| GeminiService.StripMarkdownAppend | services/geminiService.ts:86 | stripping distributes over concatenation |
| GeminiService.StripMarkdownKeepsClean | services/geminiService.ts:86 | text without markup is kept as it is |
| GeminiService.StripMarkdownOnlyMarkup | services/geminiService.ts:86 | text of markup only strips to nothing |
| GeminiService.CleanSpeechText | services/geminiService.ts:86 | the cleaned text holds no markup, has at most 800 characters, and is the first min(800, length) characters of the filtered text |
| GeminiService.CleanSpeechTextIdempotent | services/geminiService.ts:86 | cleaning twice is cleaning once |
| GeminiService.FilterBeforeTruncate | services/geminiService.ts:86 | the order matters: 800 asterisks and a letter clean to the letter, where cutting first would leave nothing |
| GeminiService.Plays | services/geminiService.ts:99-101 | speech plays only with an audio context and a payload that is valid base64 of an even number of bytes, at least one int16 sample |
| GeminiService.GeminiService.constructor | services/geminiService.ts:35-41 | no active source |
| GeminiService.GeminiService.Stop | services/geminiService.ts:113-118 | the active source, if any, is stopped and forgotten; with none it changes nothing, so a second call changes nothing |
| GeminiService.GeminiService.SpeakBegin | services/geminiService.ts:83-86 | `stop` first, then the cleaned text; with only the active source sounding, nothing sounds afterwards |
| GeminiService.GeminiService.SpeakFinish | services/geminiService.ts:99-110 | a reply that plays starts a fresh source and makes it the active one; any failure changes nothing and raises nothing |
| GeminiService.OverlappingSpeaks | services/geminiService.ts:83-111 | two calls of `speak` whose replies arrive after both have begun leave two sources sounding |
| App.NarrationText | App.tsx:33-38 | the dossier text for cases, then the flash-game text, then the welcome with no subject, else the module text naming the subject |
| App.NarrationNamesModule | App.tsx:33-38 | the narration speaks of a module exactly when a subject is chosen and neither the dossier nor the flash game is open |
| App.MainScreen | App.tsx:95-243 | the dashboard exactly with no subject on the syllabus view; the dossier exactly for cases; the subject's syllabus or quiz exactly when a subject is chosen on those views; nothing for the flash game |
| App.BackVisible | App.tsx:88 | the header offers back exactly when the main area is not the dashboard |
| App.AfterBack | App.tsx:46-57 | unchanged when the button is hidden; from the quiz, back to the syllabus with the subject kept; from the dossier or the flash game, to the dashboard; from a syllabus, the subject is cleared; the score is cleared when leaving a game view |
| App.AfterBackChangesIffVisible | App.tsx:46-57 | back changes the navigation exactly when the header shows the button (line 88) |
| App.TwoBacksReachHome | App.tsx:46-57 | at most two presses reach the dashboard, where the button is gone; from a subject's quiz it takes two |
| App.App.Navigation | App.tsx:15-17 | the navigation triple of the state |
| App.App.constructor | App.tsx:14-18 | not started, no subject, syllabus view, no score, light theme |
| App.App.Start | App.tsx:40-44 | from the onboarding screen, `hasStarted` becomes true; no other method can write it, and every other button requires it |
| App.App.HandleBack | App.tsx:46-57 | the navigation becomes `AfterBack` of the old one |
| App.App.JumpToQuiz | App.tsx:59-64 | the subject is chosen and its quiz shows |
| App.App.SelectSubject | App.tsx:152-153 | a subject card on the dashboard opens that subject's syllabus |
| App.App.OpenCases | App.tsx:102 | the dossier button opens the dossier |
| App.App.OpenFlashGame | App.tsx:117 | the flash-game button leaves the main area empty |
| App.App.StartQuiz | App.tsx:208 | the syllabus's start button opens the quiz of the same subject |
| App.App.CompleteQuiz | App.tsx:240 | the quiz's completion stores the reported score |
| App.App.ToggleTheme | App.tsx:91 | the theme becomes the other one |
| Narrator.Narrator.constructor | components/Narrator.tsx:11 | idle, no timer armed |
| Narrator.Narrator.Press | components/Narrator.tsx:13-24 | when busy it stops the active source, which leaves the sounding set, and goes idle; when idle it goes to loading and starts `speak`, whose `stop` does the same; with no active source the speech service is untouched |
| Narrator.Narrator.SpeakSettled | components/Narrator.tsx:26-33 | once `speak` resolves, the status is playing whatever it was and a reset timer is armed; a reply that plays adds a fresh source to the sounding set as the active one, and any other reply leaves the speech service untouched |
| Narrator.Narrator.TimerFired | components/Narrator.tsx:31-33 | the timer makes playing idle and leaves any other status |
| Narrator.CancelWhileLoading | components/Narrator.tsx:13-33 | a cancel while loading is overridden: the reply still plays and the button shows playing |
| A11yHub.Toggle | components/A11yHub.tsx:11-13 | the chosen flag is negated and the other two are kept |
| A11yHub.ToggleTwice | components/A11yHub.tsx:11-13 | toggling a flag twice restores the configuration |
| A11yHub.ToggleCommutes | components/A11yHub.tsx:11-13 | toggles of two flags commute |
| A11yHub.ToggleDistinct | components/A11yHub.tsx:11-13 | every switch changes the configuration, and different switches have different effects |
| ThemeToggle.NextTheme | components/ThemeToggle.tsx:9 | light goes to dark and dark to light |
| ThemeToggle.NextThemeInvolution | components/ThemeToggle.tsx:9 | toggling twice is the identity |
| ThemeToggle.ThemeIcon | components/ThemeToggle.tsx:19 | the moon shows exactly in the light theme |

## Left out

- **Web Audio plumbing** is left out:
  - audio contexts beyond their identity, rate and whether they are open;
  - `createBufferSource`, `connect` and `start`;
  - the microphone pipeline of `startStreamingInput` and `onaudioprocess` (services/geminiLiveService.ts:126-142);
  - `audioService.resume` and the click, success and failure sound cues.

  Sources and microphone streams are plain identities.
- **Foreign calls become inputs.** `getUserMedia`, the live connection and the model's `generateContent` calls are replaced by their outcomes: granted or denied, a reply or a failure. `onerror` only logs, so it is not modelled.
- **Concurrency** is not modelled. Live messages are handled one at a time, in order. The `await` inside `onmessage` is treated as if no other message could run during it.
- **Floating point** is replaced by exact reals. `currentTime` is an input, and a buffer's duration is its frame count divided by its rate.
- **AudioCodec.Atob** does not model which DOMException is thrown. A rejected payload is a single failure value.
- **Fractional frame counts.** When the int16 count is not a multiple of the channel count, the source's loop runs past the buffer's end. A `Float32Array` ignores those writes. The model uses the truncated frame count, which gives the same buffer.
- ConsultancyRoom.ConsultancyRoom.SendFinish: folds the two awaits of `handleSend` (the answer at components/ConsultancyRoom.tsx:75 and the speech at :85) into one step, so the state in which the answer is shown while `isLoading` is still true during the speech request is not modelled.
- **Duplicate codec code.** The copies of `decode` and `decodeAudioData` in services/geminiService.ts:6-33 are the same code. `AudioCodec.Decode` and `AudioCodec.DecodeAudioData` model both.
- **Narrator.Narrator.SpeakSettled** has no error branch. `speak` catches every failure, so the catch at components/Narrator.tsx:34-37 cannot be reached.
- **Byte order.** `new Int16Array(buffer)` uses the platform's byte order (services/geminiLiveService.ts:30 and :150). The model assumes a little-endian host, as nearly all browsers run on; on a big-endian host the bytes of each sample would be swapped.
- **Characters are Unicode scalar values, not UTF-16 code units.** This affects the 800-character cut and `trim` for text outside the Basic Multilingual Plane.
- **QuizGame.QuizGame.NextQuestion** requires an answered question, because its button only appears then (components/QuizGame.tsx:109). `App.App.SelectSubject`, `OpenCases`, `OpenFlashGame`, `StartQuiz` and `CompleteQuiz` likewise require the screen that shows their button; `JumpToQuiz`, `HandleBack` and `ToggleTheme` require only `hasStarted` (the back press on a hidden button is `AfterBack`'s no-op case, as in the guard at App.tsx:48). Every button method but the start button requires `hasStarted`, because only the onboarding screen renders before it (App.tsx:66-85).
- **QuizGame.QuizGame.HandleOptionSelect** handles clicks one at a time, with state updates applied in between. Two clicks that React batches before a re-render are not modelled.
- **Timers are events.** The 1-second quiz interval and the 15-second narration reset are explicit methods, not wall-clock time.
- **A message with a model turn but no `parts`** makes `parts[0]` throw a TypeError at services/geminiLiveService.ts:92, after the transcripts are reported. The model's message only holds the payload or its absence, so that case is treated as a message without audio.
- **LiveSession.GeminiLiveService.OnOpen** only reports the status. The microphone streaming it starts is not modelled.
- **Not part of this model:**
  - services/audioService.ts and constants.tsx. Quiz data only enters as the well-formedness precondition that each correct answer indexes an option.
  - The rendering components, JSX and styling, scrolling, and the class that the theme effect sets on the document root.
  - The memoised `subjectData` lookup.

## Findings

| source | as written | input that shows it | evidently intended | confidence | as-written member | corrected member |
|---|---|---|---|---|---|---|
| components/QuizGame.tsx:50 | on the last question, `onComplete` gets `score + (selectedOption === question.correctAnswer ? 1 : 0)`, but `score` already counted that answer at line 36 | a one-question quiz answered correctly reports 2 | report the number of correct answers, `score` | not executed | QuizGame.CompletionAsWrittenOvercounts | QuizGame.CompletionTotalCountsEachOnce |

Other behaviour the model exposes as written:
- **The connect guard leaves a window open.** It reads `session`, which is set only after the connection resolves. Two `connect` calls in that window both acquire the microphone. `disconnect` then stops only the stream held last (`LiveSession.ConnectingWindowLeaksStream`).
- **`speak` can leave two sources sounding.** Its `stop` runs before the request. A second call made while the first is pending finds nothing to stop, and both sources end up sounding (`GeminiService.OverlappingSpeaks`).
- **Audio contexts and the remote session can stay open.** A denied `connect` leaves its two new contexts open, and the next `connect` replaces them without closing them (`LiveSession.DenialThenRetry`). `disconnect` forgets the remote session without closing it, so its messages keep scheduling audio into the closed output context (`LiveSession.MessageAfterDisconnect`).
- **The narration button's cancel can be overridden.** A cancel pressed while `speak` is pending does not survive: the reply still plays, and the status then becomes playing (`Narrator.CancelWhileLoading`).

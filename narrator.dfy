/** The narration button: a three-state machine over `speak` and `stop`,
    with a 15-second reset once playback has started. `handleSpeak` is
    split at its await of `speak`: Press runs on the click, SpeakSettled
    when `speak` resolves; the timer is an explicit event. */
module Narrator {
  import opened Types
  import GeminiService

  datatype Status = Idle | Loading | Playing

  /** Milliseconds until the reset timer fires. */
  const ResetDelay: nat := 15000

  class Narrator {
    const tts: GeminiService.GeminiService
    var status: Status
    /** Reset timers armed and not yet fired. */
    var pendingTimers: nat

    /** The speech service is consistent, and the button never shows
        playing without a reset timer armed to bring it back to idle. */
    ghost predicate Valid()
      reads this, tts
    {
      tts.Valid() && (status == Playing ==> pendingTimers > 0)
    }

    constructor (tts: GeminiService.GeminiService)
      requires tts.Valid()
      ensures Valid()
      ensures this.tts == tts && status == Idle && pendingTimers == 0
    {
      this.tts := tts;
      status := Idle;
      pendingTimers := 0;
    }

    /** A click: when busy it stops the narration and goes idle; when idle
        it goes to loading and starts `speak`, whose synchronous part stops
        the current source and cleans the text. */
    method Press(text: string) returns (cleanText: Option<string>)
      requires Valid()
      modifies this`status, tts`activeSource, tts`playing
      ensures Valid()
      ensures tts.activeSource == None
      ensures tts.playing == old(tts.playing) - (if old(tts.activeSource).Some? then {old(tts.activeSource).value} else {})
      ensures old(tts.activeSource).None? ==> unchanged(tts)
      ensures old(status) != Idle ==> status == Idle && cleanText == None
      ensures old(status) == Idle ==> status == Loading && cleanText == Some(GeminiService.CleanSpeechText(text))
    {
      if status != Idle {
        tts.Stop();
        status := Idle;
        return None;
      }
      status := Loading;
      var clean := tts.SpeakBegin(text);
      cleanText := Some(clean);
    }

    /** `speak` resolves (it never rejects, so the catch branch is never
        taken): playback may start, the status becomes playing whatever it
        was, and the reset timer is armed. */
    method SpeakSettled(reply: GeminiService.SpeechReply, contextAvailable: bool)
      requires Valid()
      modifies this`status, this`pendingTimers, tts`activeSource, tts`playing, tts`nextId
      ensures Valid()
      ensures status == Playing && pendingTimers == old(pendingTimers) + 1
      ensures GeminiService.Plays(reply, contextAvailable) ==>
        && old(tts.nextId) !in old(tts.playing)
        && tts.activeSource == Some(old(tts.nextId)) && tts.playing == old(tts.playing) + {old(tts.nextId)}
        && tts.nextId == old(tts.nextId) + 1
      ensures !GeminiService.Plays(reply, contextAvailable) ==> unchanged(tts)
    {
      tts.SpeakFinish(reply, contextAvailable);
      status := Playing;
      pendingTimers := pendingTimers + 1;
    }

    /** A reset timer fires: playing becomes idle; any other status stays. */
    method TimerFired()
      requires Valid() && pendingTimers > 0
      modifies this`status, this`pendingTimers
      ensures Valid()
      ensures pendingTimers == old(pendingTimers) - 1
      ensures old(status) == Playing ==> status == Idle
      ensures old(status) != Playing ==> status == old(status)
    {
      if status == Playing {
        status := Idle;
      }
      pendingTimers := pendingTimers - 1;
    }
  }

  /** Cancelling while the speech is loading does not cancel it: the reply
      still starts playback and the button shows playing. */
  method CancelWhileLoading(reply: GeminiService.SpeechReply) returns (status: Status, sounding: bool)
    requires GeminiService.Plays(reply, true)
    ensures status == Playing && sounding
  {
    var tts := new GeminiService.GeminiService();
    var narrator := new Narrator(tts);
    var _ := narrator.Press("texto");
    var _ := narrator.Press("texto");
    assert narrator.status == Idle;
    narrator.SpeakSettled(reply, true);
    status := narrator.status;
    sounding := tts.activeSource.Some?;
  }
}

/** The one process-wide show session: its state is the set of module-level
    variables of the server, and every socket event handler is a method that
    checks its guard, updates the fields and emits messages.

    Messages sent with `io.emit` reach every connected client identically, so
    they are appended to the one shared `outbox`. Messages sent only to the
    requesting socket (the resync on connection and the reply to `get-timer`)
    are returned to the caller instead. The clock is the parameter `now`
    (milliseconds), read once per event. */
module ShowSession {
  import opened Protocol
  import TimerMath

  /** A routine timer broadcast is dropped if the previous one is younger than this (ms). */
  const ThrottleMs: nat := 950

  /** Audio offsets are measured back from this second of the countdown track. */
  const TrackEnd: int := 59

  /** Every field of a session except its outbox, as one value. */
  datatype SessionState = SessionState(
    question: Question,
    timerValue: TimerValue,
    currentTimerValue: Option<TimerValue>,
    timerStartTime: Option<nat>,
    timerPaused: bool,
    timerPausedAt: Option<nat>,
    timerMaxValue: TimerValue,
    timerStarted: bool,
    highlight: Highlight,
    lastBroadcastTime: nat,
    screen: string)

  class Session {
    var currentQuestion: Question
    var timerValue: TimerValue
    var currentTimerValue: Option<TimerValue>
    var timerStartTime: Option<nat>
    var timerPaused: bool
    var timerPausedAt: Option<nat>
    var timerMaxValue: TimerValue
    var timerStarted: bool
    var highlightedOption: Highlight
    var lastBroadcastTime: nat
    var currentScreen: string
    /** Everything broadcast to all clients so far, in order. */
    var outbox: seq<Msg>

    ghost function State(): (s: SessionState)
      reads this
    {
      SessionState(currentQuestion, timerValue, currentTimerValue, timerStartTime, timerPaused,
                   timerPausedAt, timerMaxValue, timerStarted, highlightedOption,
                   lastBroadcastTime, currentScreen)
    }

    /** The combinations of timer flags and timestamps that the handlers can
        produce. A stopped timer is flagged paused and has no timestamps; a
        started one has a start time, and a pause time exactly when paused.
        While started, the timer value is a number of seconds (the arithmetic
        paths are not modelled for "unlimited"). */
    ghost predicate Valid()
      reads this
    {
      (!timerStarted ==> timerPaused && timerStartTime == None && timerPausedAt == None) &&
      (timerStarted ==> timerStartTime.Some? && (timerPaused <==> timerPausedAt.Some?)) &&
      (timerStarted ==> timerValue.Seconds? && currentTimerValue.Some? && currentTimerValue.value.Seconds?) &&
      (timerStartTime.Some? ==> timerStartTime.value > 0) &&
      (timerStartTime.Some? && timerPausedAt.Some? ==> timerStartTime.value <= timerPausedAt.value)
    }

    /** `now` is a reading of a positive clock that never goes back: it is not
        earlier than any timestamp the session has stored. */
    predicate ClockOk(now: nat)
      reads this
    {
      0 < now && lastBroadcastTime <= now &&
      (timerStartTime.Some? ==> timerStartTime.value <= now) &&
      (timerPausedAt.Some? ==> timerPausedAt.value <= now)
    }

    /** The phase sent in `timer-state`, derived from the two flags. */
    function CurrentPhase(): (p: Phase)
      reads this
      ensures p == Running <==> timerStarted && !timerPaused
      // under the invariant the flags and the timestamps tell the same phase
      ensures Valid() ==> (p == Stopped <==> timerStartTime == None)
      ensures Valid() ==> (p == Paused <==> timerPausedAt.Some?)
    {
      if timerStarted then (if timerPaused then Paused else Running) else Stopped
    }

    /** The time left on a started countdown, always derived from the stored
        timestamps: up to `now` while running, up to the pause while paused. */
    ghost function TimeLeft(now: nat): (left: int)
      reads this
      requires Valid() && ClockOk(now) && timerStarted
      ensures 0 <= left && (timerValue.n >= 0 ==> left <= timerValue.n)
      // paused: the time left is the one measured at the pause, whatever `now` is
      ensures timerPaused ==> left == TimerMath.Remaining(timerValue.n, timerStartTime.value, timerPausedAt.value)
    {
      if timerPaused then TimerMath.Remaining(timerValue.n, timerStartTime.value, timerPausedAt.value)
      else TimerMath.Remaining(timerValue.n, timerStartTime.value, now)
    }

    constructor ()
      ensures Valid() && outbox == []
      ensures State() == SessionState(Placeholder, Seconds(30), None, None, true, None, Seconds(30),
                                      false, NoHighlight, 0, "logo")
      ensures CurrentPhase() == Stopped
    {
      currentQuestion := Placeholder;
      timerValue := Seconds(30);
      currentTimerValue := None;
      timerStartTime := None;
      timerPaused := true;
      timerPausedAt := None;
      timerMaxValue := Seconds(30);
      timerStarted := false;
      highlightedOption := NoHighlight;
      lastBroadcastTime := 0;
      currentScreen := "logo";
      outbox := [];
    }

    /** The timer messages one client is sent (`updateTimerForClient`). */
    function TimerUpdateMessages(now: nat, triggerAudio: bool, audioOffset: int): (r: seq<Msg>)
      reads this
      requires Valid() && ClockOk(now)
      // an `update-timer` and a `current-timer` that agree, then the freeze state
      ensures |r| == 2 || |r| == 3
      ensures r[0].UpdateTimer? && r[1] == CurrentTimer(r[0].current, r[0].max)
      ensures r[0].audioTrigger == triggerAudio
      // "unlimited" short-circuits: no countdown and no freeze state
      ensures currentTimerValue == Some(Unlimited) <==> |r| == 2
      ensures |r| == 2 ==> r[0].current == Some(Unlimited) && r[0].max == Unlimited && r[0].startPosition == None
      ensures |r| == 3 ==> r[0].max == timerMaxValue
      // paused (or stopped): the stored value, frozen
      ensures |r| == 3 && timerPaused ==>
        r[0].current == currentTimerValue && r[0].startPosition == Some(audioOffset) && r[2] == FreezeTimer(false)
      // running: the time left, recomputed from the start timestamp
      ensures !timerPaused ==>
        r[0].current == Some(Seconds(TimeLeft(now))) && r[2] == UnfreezeTimer(false, None) &&
        r[0].startPosition == Some(if audioOffset != 0 then audioOffset else TrackEnd - TimeLeft(now))
    {
      if currentTimerValue == Some(Unlimited) then
        [UpdateTimer(Some(Unlimited), Unlimited, triggerAudio, None),
         CurrentTimer(Some(Unlimited), Unlimited)]
      else if timerPaused then
        [UpdateTimer(currentTimerValue, timerMaxValue, triggerAudio, Some(audioOffset)),
         CurrentTimer(currentTimerValue, timerMaxValue),
         FreezeTimer(false)]
      else
        // running: under Valid() the start time is set and positive, so the
        // source's `else if (timerStartTime)` test always passes
        var remaining := TimerMath.Remaining(timerValue.n, timerStartTime.value, now);
        [UpdateTimer(Some(Seconds(remaining)), timerMaxValue, triggerAudio,
                     Some(if audioOffset != 0 then audioOffset else TrackEnd - remaining)),
         CurrentTimer(Some(Seconds(remaining)), timerMaxValue),
         UnfreezeTimer(false, None)]
    }

    /** Full resync for a client that has just connected. */
    method OnConnection(now: nat) returns (reply: seq<Msg>)
      requires Valid() && ClockOk(now)
      // question body first, then the option reveal with the timer, then the
      // highlight, the screen and the phase
      ensures reply == [DisplayQuestion(currentQuestion)]
                       + (if OptionsShown(currentQuestion) then [ShowOptions] + TimerUpdateMessages(now, false, 0) else [])
                       + HighlightMessages(highlightedOption)
                       + [ChangeScreen(currentScreen), TimerState(CurrentPhase())]
      ensures reply[0] == DisplayQuestion(currentQuestion)
      ensures ShowOptions in reply <==> OptionsShown(currentQuestion)
      ensures reply[|reply| - 2..] == [ChangeScreen(currentScreen), TimerState(CurrentPhase())]
    {
      reply := [];
      // `currentQuestion` is always an object, so this branch is always taken
      reply := reply + [DisplayQuestion(currentQuestion)];
      if OptionsShown(currentQuestion) {
        reply := reply + [ShowOptions];
        reply := reply + TimerUpdateMessages(now, false, 0);
      }
      // `highlightedOption.index !== null`, then the event of its kind
      reply := reply + HighlightMessages(highlightedOption);
      reply := reply + [ChangeScreen(currentScreen)];
      reply := reply + [TimerState(CurrentPhase())];
    }

    /** `question-update`: replace the question, or while the timer is started
        edit its text and options in place. */
    method OnQuestionUpdate(data: QuestionPayload)
      requires Valid()
      modifies this
      ensures Valid()
      // a blank text or option, or missing options, is silently ignored
      ensures !Acceptable(data) ==> State() == old(State()) && outbox == old(outbox)
      // while started: text and options edited, displayed value and maximum reset to the
      // configured duration, the countdown timestamps kept
      ensures Acceptable(data) && old(timerStarted) ==>
        State() == old(State()).(
          question := old(currentQuestion).(text := data.text, options := data.options.value),
          timerMaxValue := old(timerValue),
          currentTimerValue := Some(old(timerValue)))
      // while stopped: a fresh question, highlight cleared, timer still stopped
      ensures Acceptable(data) && !old(timerStarted) ==>
        State() == old(State()).(
          question := Question(data.text, data.options.value, Some(old(timerValue)), Some(old(timerValue)), Some(false)),
          timerMaxValue := old(timerValue),
          currentTimerValue := Some(old(timerValue)),
          highlight := NoHighlight)
      ensures Acceptable(data) ==>
        CurrentPhase() == old(CurrentPhase()) &&
        outbox == old(outbox) + [DisplayQuestion(currentQuestion), TimerState(CurrentPhase())]
    {
      if !Acceptable(data) {
        return;
      }
      timerMaxValue := timerValue;
      currentTimerValue := Some(timerValue);
      if timerStarted {
        // `currentQuestion` is always an object, so this branch is always taken
        currentQuestion := currentQuestion.(text := data.text, options := data.options.value);
      } else {
        timerPaused := true;
        timerPausedAt := None;
        timerStartTime := None;
        timerStarted := false;
        highlightedOption := NoHighlight;
        currentQuestion := Question(data.text, data.options.value, Some(timerValue), Some(timerMaxValue), Some(false));
      }
      outbox := outbox + [DisplayQuestion(currentQuestion)];
      outbox := outbox + [TimerState(CurrentPhase())];
    }

    /** `show-options`: reveal the options and start the countdown. */
    method OnShowOptions(now: nat)
      requires Valid() && ClockOk(now)
      requires timerStarted || timerValue.Seconds?
      modifies this
      ensures Valid() && ClockOk(now)
      // a started timer's settings are locked
      ensures old(timerStarted) ==> State() == old(State()) && outbox == old(outbox)
      ensures !old(timerStarted) ==>
        State() == old(State()).(
          question := old(currentQuestion).(showOptions := Some(true)),
          timerPaused := false,
          timerStartTime := Some(now),
          currentTimerValue := Some(old(timerValue)),
          timerStarted := true,
          lastBroadcastTime := now)
      ensures !old(timerStarted) ==>
        CurrentPhase() == Running &&
        TimeLeft(now) == (if timerValue.n > 0 then timerValue.n else 0) &&
        outbox == old(outbox) + [ShowOptions,
                                 UpdateTimer(Some(timerValue), timerMaxValue, true, Some(TrackEnd - timerValue.n)),
                                 TimerState(Running)]
    {
      if timerStarted {
        return;
      }
      currentQuestion := currentQuestion.(showOptions := Some(true));
      timerPaused := false;
      timerStartTime := Some(now);
      currentTimerValue := Some(timerValue);
      timerStarted := true;
      outbox := outbox + [ShowOptions];
      outbox := outbox + [UpdateTimer(currentTimerValue, timerMaxValue, true, Some(TrackEnd - timerValue.n))];
      outbox := outbox + [TimerState(Running)];
      lastBroadcastTime := now;
    }

    /** The state `pauseTimer` leaves: a running countdown frozen at its time
        left; anything else untouched. */
    ghost function PauseEffect(now: nat): (s: SessionState)
      reads this
      requires Valid() && ClockOk(now)
    {
      if timerStarted && !timerPaused then
        State().(timerPausedAt := Some(now), timerPaused := true,
                 currentTimerValue := Some(Seconds(TimeLeft(now))))
      else State()
    }

    /** The messages `pauseTimer` broadcasts. */
    function PauseMessages(triggerAudio: bool): (msgs: seq<Msg>)
      reads this
    {
      if timerStarted && !timerPaused then [FreezeTimer(triggerAudio), TimerState(Paused)] else []
    }

    /** `pauseTimer`: freeze a running countdown; a no-op otherwise. */
    method PauseTimer(triggerAudio: bool, now: nat)
      requires Valid() && ClockOk(now)
      modifies this
      ensures Valid() && ClockOk(now)
      ensures State() == old(PauseEffect(now))
      ensures outbox == old(outbox) + old(PauseMessages(triggerAudio))
      ensures old(CurrentPhase()) != Running ==> State() == old(State()) && outbox == old(outbox)
      // the frozen value is the time left, and the time left stops moving
      ensures old(CurrentPhase()) == Running ==>
        CurrentPhase() == Paused && TimeLeft(now) == old(TimeLeft(now)) &&
        currentTimerValue == Some(Seconds(TimeLeft(now))) &&
        forall later: nat :: now <= later ==> TimeLeft(later) == TimeLeft(now)
    {
      if !timerPaused && timerStarted {
        timerPausedAt := Some(now);
        timerPaused := true;
        if timerStartTime.Some? && timerStartTime.value != 0 {
          currentTimerValue := Some(Seconds(TimerMath.Remaining(timerValue.n, timerStartTime.value, now)));
        }
        outbox := outbox + [FreezeTimer(triggerAudio)];
        outbox := outbox + [TimerState(Paused)];
      }
    }

    /** `pick-answer`: highlight the chosen option, play the lock cue and
        freeze the countdown. */
    method OnPickAnswer(index: int, now: nat)
      requires Valid() && ClockOk(now)
      modifies this
      ensures Valid() && ClockOk(now)
      ensures !(0 <= index < |old(currentQuestion).options|) ==> State() == old(State()) && outbox == old(outbox)
      ensures 0 <= index < |old(currentQuestion).options| ==>
        State() == old(PauseEffect(now)).(highlight := Highlighted(index, Selected)) &&
        outbox == old(outbox) + [HighlightAnswer(index), TriggerAudio("lock")] + old(PauseMessages(false))
    {
      // `currentQuestion` is always an object: only the index is checked
      if 0 <= index < |currentQuestion.options| {
        highlightedOption := Highlighted(index, Selected);
        outbox := outbox + [HighlightAnswer(index)];
        outbox := outbox + [TriggerAudio("lock")];
        PauseTimer(false, now);
      }
    }

    /** `mark-correct`: mark an option as the correct answer. */
    method OnMarkCorrect(index: int)
      requires Valid()
      modifies this
      ensures Valid()
      ensures !(0 <= index < |old(currentQuestion).options|) ==> State() == old(State()) && outbox == old(outbox)
      ensures 0 <= index < |old(currentQuestion).options| ==>
        State() == old(State()).(highlight := Highlighted(index, Correct)) &&
        outbox == old(outbox) + [MarkCorrect(index), TriggerAudio("correct")]
    {
      if 0 <= index < |currentQuestion.options| {
        highlightedOption := Highlighted(index, Correct);
        outbox := outbox + [MarkCorrect(index)];
        outbox := outbox + [TriggerAudio("correct")];
      }
    }

    /** `mark-wrong`: mark an option as a wrong answer. */
    method OnMarkWrong(index: int)
      requires Valid()
      modifies this
      ensures Valid()
      ensures !(0 <= index < |old(currentQuestion).options|) ==> State() == old(State()) && outbox == old(outbox)
      ensures 0 <= index < |old(currentQuestion).options| ==>
        State() == old(State()).(highlight := Highlighted(index, Wrong)) &&
        outbox == old(outbox) + [MarkWrong(index), TriggerAudio("wrong")]
    {
      if 0 <= index < |currentQuestion.options| {
        highlightedOption := Highlighted(index, Wrong);
        outbox := outbox + [MarkWrong(index)];
        outbox := outbox + [TriggerAudio("wrong")];
      }
    }

    /** `reset-timer`: re-arm the displayed value to the configured one. */
    method OnResetTimer()
      requires Valid()
      modifies this
      ensures Valid()
      ensures old(timerStarted) ==> State() == old(State()) && outbox == old(outbox)
      ensures !old(timerStarted) ==>
        State() == old(State()).(currentTimerValue := Some(old(timerValue))) &&
        outbox == old(outbox) + [UpdateTimer(Some(timerValue), timerMaxValue, false, None)]
    {
      if timerStarted {
        return;
      }
      currentTimerValue := Some(timerValue);
      outbox := outbox + [UpdateTimer(currentTimerValue, timerMaxValue, false, None)];
    }

    /** `change-timer`: configure a new duration. */
    method OnChangeTimer(value: TimerValue)
      requires Valid()
      modifies this
      ensures Valid()
      ensures old(timerStarted) ==> State() == old(State()) && outbox == old(outbox)
      ensures !old(timerStarted) ==>
        State() == old(State()).(timerValue := value, timerMaxValue := value, currentTimerValue := Some(value)) &&
        outbox == old(outbox) + [UpdateTimer(Some(value), value, false, None)]
    {
      if timerStarted {
        return;
      }
      timerValue := value;
      timerMaxValue := value;
      currentTimerValue := Some(value);
      outbox := outbox + [UpdateTimer(currentTimerValue, timerMaxValue, false, None)];
    }

    /** `freeze-timer`: pause without the pause sound. */
    method OnFreezeTimer(now: nat)
      requires Valid() && ClockOk(now)
      modifies this
      ensures Valid() && ClockOk(now)
      ensures State() == old(PauseEffect(now))
      ensures outbox == old(outbox) + old(PauseMessages(false))
    {
      PauseTimer(false, now);
    }

    /** `remove-question`: back to the empty question, no highlight, timer stopped. */
    method OnRemoveQuestion()
      requires Valid()
      modifies this
      ensures Valid() && CurrentPhase() == Stopped
      // the configured duration, the displayed value and the screen are kept
      ensures State() == old(State()).(
        question := Placeholder,
        timerPaused := true,
        timerStartTime := None,
        timerPausedAt := None,
        timerStarted := false,
        highlight := NoHighlight)
      ensures outbox == old(outbox) + [ClearQuestion, TimerState(Stopped)]
    {
      currentQuestion := Placeholder;
      timerPaused := true;
      timerStartTime := None;
      timerPausedAt := None;
      timerStarted := false;
      highlightedOption := NoHighlight;
      outbox := outbox + [ClearQuestion];
      outbox := outbox + [TimerState(Stopped)];
    }

    /** `play-audio`: relay an audio cue to every client. */
    method OnPlayAudio(cue: string)
      requires Valid()
      modifies this
      ensures Valid()
      ensures State() == old(State())
      ensures outbox == old(outbox) + [TriggerAudio(cue)]
    {
      outbox := outbox + [TriggerAudio(cue)];
    }

    /** `get-timer`: the timer snapshot and the phase, to the asking client only. */
    method OnGetTimer(now: nat) returns (reply: seq<Msg>)
      requires Valid() && ClockOk(now)
      ensures reply == TimerUpdateMessages(now, false, 0) + [TimerState(CurrentPhase())]
      ensures reply[0].UpdateTimer? && reply[|reply| - 1] == TimerState(CurrentPhase())
    {
      reply := TimerUpdateMessages(now, false, 0);
      reply := reply + [TimerState(CurrentPhase())];
    }

    /** `pause-timer`: pause with the pause sound, only while running. */
    method OnPauseTimer(now: nat)
      requires Valid() && ClockOk(now)
      modifies this
      ensures Valid() && ClockOk(now)
      ensures old(CurrentPhase()) != Running ==> State() == old(State()) && outbox == old(outbox)
      ensures old(CurrentPhase()) == Running ==>
        State() == old(PauseEffect(now)) &&
        outbox == old(outbox) + [FreezeTimer(true), TimerState(Paused)]
    {
      if !timerStarted || timerPaused {
        return;
      }
      PauseTimer(true, now);
    }

    /** `continue-timer`: resume a paused countdown where it was frozen. */
    method OnContinueTimer(now: nat)
      requires Valid() && ClockOk(now)
      modifies this
      ensures Valid() && ClockOk(now)
      ensures old(CurrentPhase()) != Paused ==> State() == old(State()) && outbox == old(outbox)
      // the start moves forward by the paused time, so the countdown goes on
      // from the value it had at the pause, however long the pause lasted
      ensures old(CurrentPhase()) == Paused ==>
        State() == old(State()).(
          timerStartTime := Some(TimerMath.ResumedStart(old(timerStartTime).value, old(timerPausedAt).value, now)),
          timerPaused := false,
          timerPausedAt := None,
          lastBroadcastTime := now) &&
        CurrentPhase() == Running &&
        TimeLeft(now) == old(TimeLeft(now)) &&
        var r := TimeLeft(now);
        outbox == old(outbox) + [UnfreezeTimer(true, Some(TrackEnd - r)),
                                 UpdateTimer(Some(Seconds(r)), timerMaxValue, true, Some(TrackEnd - r)),
                                 CurrentTimer(Some(Seconds(r)), timerMaxValue),
                                 UnfreezeTimer(false, None),
                                 TimerState(Running)]
    {
      if !timerStarted || !timerPaused {
        return;
      }
      if timerPausedAt.Some? {
        var startOrZero := if timerStartTime.Some? then timerStartTime.value else 0;
        TimerMath.ResumePreservesRemaining(timerValue.n, startOrZero, timerPausedAt.value, now);
        timerStartTime := Some(now - (timerPausedAt.value - startOrZero));
        timerPaused := false;
        timerPausedAt := None;
        var remainingTime := TimerMath.Remaining(timerValue.n, timerStartTime.value, now);
        var audioOffset := TrackEnd - remainingTime;
        outbox := outbox + [UnfreezeTimer(true, Some(audioOffset))];
        UpdateTimerForAllClients(true, audioOffset, now);
        outbox := outbox + [TimerState(Running)];
      }
    }

    /** `set-screen`: switch every display to the given screen. */
    method OnSetScreen(screen: string)
      requires Valid()
      modifies this
      ensures Valid()
      ensures State() == old(State()).(screen := screen)
      ensures outbox == old(outbox) + [ChangeScreen(screen)]
    {
      currentScreen := screen;
      outbox := outbox + [ChangeScreen(screen)];
    }

    /** `updateTimerForAllClients`: send every client its timer snapshot, unless
        this is a routine update less than `ThrottleMs` after the last one. */
    method UpdateTimerForAllClients(triggerAudio: bool, audioOffset: int, now: nat)
      requires Valid() && ClockOk(now)
      modifies this
      ensures Valid() && ClockOk(now)
      ensures !triggerAudio && now - old(lastBroadcastTime) < ThrottleMs ==>
        State() == old(State()) && outbox == old(outbox)
      ensures triggerAudio || now - old(lastBroadcastTime) >= ThrottleMs ==>
        State() == old(State()).(lastBroadcastTime := now) &&
        outbox == old(outbox) + old(TimerUpdateMessages(now, triggerAudio, audioOffset))
    {
      if !triggerAudio && now - lastBroadcastTime < ThrottleMs {
        return;
      }
      lastBroadcastTime := now;
      outbox := outbox + TimerUpdateMessages(now, triggerAudio, audioOffset);
    }

    /** The once-a-second tick: a routine, throttled update while running. */
    method Tick(now: nat)
      requires Valid() && ClockOk(now)
      modifies this
      ensures Valid() && ClockOk(now)
      ensures old(CurrentPhase()) != Running || now - old(lastBroadcastTime) < ThrottleMs ==>
        State() == old(State()) && outbox == old(outbox)
      ensures old(CurrentPhase()) == Running && now - old(lastBroadcastTime) >= ThrottleMs ==>
        State() == old(State()).(lastBroadcastTime := now) &&
        outbox == old(outbox) + old(TimerUpdateMessages(now, false, 0)) &&
        outbox[|outbox| - 3].current == Some(Seconds(TimeLeft(now)))
    {
      if !timerPaused && timerStartTime.Some? && timerStartTime.value != 0 {
        UpdateTimerForAllClients(false, 0, now);
      }
    }
  }
}

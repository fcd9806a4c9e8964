/** Show sequences driven through the session's handlers, with what their
    contracts alone let a caller conclude about the broadcast messages. */
module ShowScenarios {
  import opened Protocol
  import opened ShowSession

  /** Pause at `t1`, resume at `t2`: the resumed countdown goes on from the
      value frozen at the pause, whatever the length of the pause. */
  method PauseThenContinue(t0: nat, t1: nat, t2: nat)
    requires 0 < t0 <= t1 <= t2
  {
    var s := new Session();
    s.OnShowOptions(t0);
    s.OnPauseTimer(t1);
    var frozen := s.currentTimerValue;
    assert s.outbox[|s.outbox| - 2..] == [FreezeTimer(true), TimerState(Paused)];
    s.OnContinueTimer(t2);
    assert frozen == Some(Seconds(s.TimeLeft(t2)));
    assert s.outbox[|s.outbox| - 4].current == frozen;
    assert s.outbox[|s.outbox| - 1] == TimerState(Running);
  }

  /** Start at `t0`, then pause and continue once per cycle. The session's
      start time ends up where `StartAfter` puts it: moved forward by exactly
      the total time spent paused. */
  method PauseContinueCycles(t0: nat, cycles: seq<TimerMath.Cycle>) returns (start: nat)
    requires 0 < t0 && TimerMath.Ordered(t0, cycles)
    ensures start == TimerMath.StartAfter(t0, cycles)
    ensures start == t0 + TimerMath.PausedTotal(cycles)
  {
    var s := new Session();
    s.OnShowOptions(t0);
    ghost var last := t0;
    var i := 0;
    while i < |cycles|
      invariant 0 <= i <= |cycles|
      invariant s.Valid() && s.CurrentPhase() == Running && s.timerStartTime.Some?
      invariant s.timerStartTime.value <= last && s.lastBroadcastTime == last
      invariant TimerMath.Ordered(last, cycles[i..])
      invariant TimerMath.Ordered(s.timerStartTime.value, cycles[i..])
      invariant TimerMath.StartAfter(s.timerStartTime.value, cycles[i..]) == TimerMath.StartAfter(t0, cycles)
    {
      var c := cycles[i];
      assert cycles[i..][1..] == cycles[i + 1..];
      s.OnPauseTimer(c.pausedAt);
      s.OnContinueTimer(c.resumedAt);
      last := c.resumedAt;
      i := i + 1;
      TimerMath.OrderedLowerStart(s.timerStartTime.value, last, cycles[i..]);
    }
    start := s.timerStartTime.value;
    TimerMath.StartAfterShiftsByPausedTotal(t0, cycles);
  }

  /** A 45-second countdown read 10 seconds after it started shows 35; a
      routine tick half a second after the start is dropped by the throttle. */
  method DurationThenStart()
  {
    var s := new Session();
    s.OnChangeTimer(Seconds(45));
    s.OnShowOptions(1000);
    assert s.outbox[|s.outbox| - 2] == UpdateTimer(Some(Seconds(45)), Seconds(45), true, Some(14));
    var before := s.outbox;
    s.Tick(1500);
    assert s.outbox == before;
    s.Tick(11000);
    assert s.outbox[|s.outbox| - 3] == UpdateTimer(Some(Seconds(35)), Seconds(45), false, Some(24));
  }

  const Sample := QuestionPayload("Capital?", Some(["Paris", "Berlin", "Rome", "Oslo"]))
  const SampleWithBlank := QuestionPayload("Capital?", Some(["Paris", " ", "Rome", "Oslo"]))

  lemma SampleIsAcceptable()
    ensures Acceptable(Sample)
  {
    assert !Blank("Capital?") by { assert !IsTrimmed("Capital?"[0]); }
    var opts := Sample.options.value;
    forall i | 0 <= i < |opts| ensures !Blank(opts[i]) {
      assert !IsTrimmed(opts[i][0]);
    }
  }

  lemma BlankOptionIsRejected()
    ensures !Acceptable(SampleWithBlank)
  {
    assert SampleWithBlank.options.value[1] == " ";
    assert IsTrimmed(" "[0]);
  }

  /** A question with a blank option changes nothing and broadcasts nothing. */
  method BlankOptionIgnored()
  {
    var s := new Session();
    BlankOptionIsRejected();
    s.OnQuestionUpdate(SampleWithBlank);
    assert s.outbox == [] && s.currentQuestion == Placeholder;
  }

  /** A highlight made on a displayed question is reproduced for a client
      joining later; removing the question clears both. */
  method PickAnswerThenLateJoin(now: nat)
    requires 0 < now
  {
    var s := new Session();
    SampleIsAcceptable();
    s.OnQuestionUpdate(Sample);
    assert |s.currentQuestion.options| == 4;
    s.OnPickAnswer(2, now);
    assert s.highlightedOption == Highlighted(2, Selected);
    var reply := s.OnConnection(now);
    assert HighlightAnswer(2) in reply by {
      assert HighlightMessages(s.highlightedOption) == [HighlightAnswer(2)];
    }
    s.OnRemoveQuestion();
    assert s.outbox[|s.outbox| - 2..] == [ClearQuestion, TimerState(Stopped)];
    assert s.highlightedOption == NoHighlight && s.currentQuestion == Placeholder;
  }
}

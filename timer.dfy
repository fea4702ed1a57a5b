/** The shared speaking timer (js/models/timer.js): idle, or running for one
    category since a clock reading; stopping it commits one duration sample
    into the meeting's `speakingData`. */
module Timer {
  import opened Common
  import opened Config
  import opened Meetings
  import TimeFormat

  /** Where `stopTimer` puts a finished segment of `d` seconds: appended to the
      list of `speaker` when `speaker` is truthy and has a list, dropped otherwise. */
  function Commit(data: SpeakingData, speaker: Option<string>, d: real): (r: SpeakingData)
    ensures r.Keys == data.Keys
  {
    if Truthy(speaker) && speaker.value in data
    then data[speaker.value := data[speaker.value] + [d]]
    else data
  }

  /** A commit appends exactly one sample to the speaker's list and leaves every
      other list as it was; without a truthy speaker that has a list, nothing changes. */
  lemma CommitAppendsOnce(data: SpeakingData, speaker: Option<string>, d: real)
    ensures Truthy(speaker) && speaker.value in data ==>
      Commit(data, speaker, d)[speaker.value] == data[speaker.value] + [d]
    ensures forall g :: g in data && (!Truthy(speaker) || g != speaker.value) ==>
      Commit(data, speaker, d)[g] == data[g]
    ensures !(Truthy(speaker) && speaker.value in data) ==> Commit(data, speaker, d) == data
  {
  }

  /** A commit raises the meeting's total speaking time by `d` exactly when the
      speaker is one of `Types` with a list, and the speaker's own time likewise. */
  lemma CommitRaisesTotal(data: SpeakingData, speaker: Option<string>, d: real)
    ensures AllSpeakingTime(Commit(data, speaker, d))
         == AllSpeakingTime(data) + (if Truthy(speaker) && speaker.value in data && speaker.value in Types then d else 0.0)
    ensures forall g ::
      SpeakingTime(Commit(data, speaker, d), g)
        == SpeakingTime(data, g) + (if Truthy(speaker) && g == speaker.value && g in data then d else 0.0)
  {
    if Truthy(speaker) && speaker.value in data {
      AppendRaisesTotals(data, speaker.value, d);
    }
  }

  class SpeakingTimer {
    const meeting: Meeting
    /** `CONFIG.TIMER.UPDATE_ANIMATION_FRAME`: which tick source the timer uses. */
    const animationFrameMode: bool
    var startTime: Option<Millis>
    /** A `setInterval` handle is held (`this.interval` truthy). */
    var interval: bool
    /** An animation frame is requested (`this.animationFrameId` truthy). */
    var animationFrame: bool
    var currentDuration: real
    var currentSpeaker: Option<string>
    /** The text last written to the timer displays. */
    var shownTime: string

    /** Running exactly when a speaker is held; only the configured tick source
        is ever in use, and only while running. */
    ghost predicate Valid()
      reads this
    {
      (startTime.Some? <==> currentSpeaker.Some?)
      && (animationFrameMode ==> !interval)
      && (!animationFrameMode ==> !animationFrame)
      && ((interval || animationFrame) ==> startTime.Some?)
    }

    /** `new SpeakingTimer(meeting)`: idle, no tick source, duration 0. */
    constructor (meeting: Meeting, animationFrameMode: bool, shownTime: string)
      ensures Valid()
      ensures this.meeting == meeting && this.animationFrameMode == animationFrameMode
      ensures startTime == None && currentSpeaker == None && !interval && !animationFrame
      ensures currentDuration == 0.0 && this.shownTime == shownTime
    {
      this.meeting := meeting;
      this.animationFrameMode := animationFrameMode;
      startTime := None;
      interval := false;
      animationFrame := false;
      currentDuration := 0.0;
      currentSpeaker := None;
      this.shownTime := shownTime;
    }

    /** `getCurrentDuration()` at clock reading `now`: null when idle, otherwise
        the seconds since `startTime`. */
    function GetCurrentDuration(now: Millis): (d: Option<real>)
      reads this
      ensures d.None? <==> startTime.None?
      ensures d.Some? ==> d.value == Seconds(startTime.value, now)
      ensures d.Some? && now >= startTime.value ==> d.value >= 0.0
    {
      if startTime.None? then None else Some(Seconds(startTime.value, now))
    }

    /** `stopTimer()` at `now`: idle, nothing changes; running, the current
        duration is committed under `meeting.currentSpeaker`, the tick source is
        released, both speakers and the start are cleared and the displays reset. */
    method StopTimer(now: Millis)
      requires Valid()
      modifies this, meeting`speakingData, meeting`currentSpeaker
      ensures Valid()
      ensures old(startTime).None? ==>
        unchanged(this) && meeting.speakingData == old(meeting.speakingData)
        && meeting.currentSpeaker == old(meeting.currentSpeaker)
      ensures old(startTime).Some? ==>
        meeting.speakingData
          == Commit(old(meeting.speakingData), old(meeting.currentSpeaker), old(GetCurrentDuration(now)).value)
        && startTime == None && currentSpeaker == None && meeting.currentSpeaker == None
        && !interval && !animationFrame && shownTime == DefaultDisplay
        && currentDuration == old(currentDuration)
    {
      if startTime.None? {
        return;
      }
      var duration := Seconds(startTime.value, now);
      var gender := meeting.currentSpeaker;
      if Truthy(gender) && gender.value in meeting.speakingData {
        meeting.speakingData := meeting.speakingData[gender.value := meeting.speakingData[gender.value] + [duration]];
      }
      if animationFrameMode && animationFrame {
        animationFrame := false;
      } else if interval {
        interval := false;
      }
      startTime := None;
      currentSpeaker := None;
      meeting.currentSpeaker := None;
      shownTime := DefaultDisplay;
    }

    /** `startTimer(gender)` at `now`: the running segment is stopped (and
        committed) first only when an interval handle is held; then `gender`
        becomes the speaker of the timer and of the meeting from `now`, and the
        configured tick source is started. */
    method StartTimer(gender: string, now: Millis)
      requires Valid()
      modifies this, meeting`speakingData, meeting`currentSpeaker
      ensures Valid()
      ensures startTime == Some(now) && currentSpeaker == Some(gender)
      ensures meeting.currentSpeaker == Some(gender)
      ensures meeting.speakingData == if old(interval)
        then Commit(old(meeting.speakingData), old(meeting.currentSpeaker), old(GetCurrentDuration(now)).value)
        else old(meeting.speakingData)
      ensures animationFrameMode ==> animationFrame && !interval
      ensures !animationFrameMode ==> interval && !animationFrame
      ensures currentDuration == old(currentDuration)
      ensures shownTime == if old(interval) then DefaultDisplay else old(shownTime)
    {
      if interval {
        StopTimer(now);
      }
      currentSpeaker := Some(gender);
      meeting.currentSpeaker := Some(gender);
      startTime := Some(now);
      if animationFrameMode {
        animationFrame := true;
      } else {
        interval := true;
      }
    }

    /** `updateTimer()`: a tick at `now`. Idle, it returns the default display
        and changes nothing; running, it stores the elapsed seconds and shows and
        returns them formatted. */
    method UpdateTimer(now: Millis) returns (shown: string)
      modifies this`currentDuration, this`shownTime
      ensures startTime.None? ==> shown == DefaultDisplay && unchanged(this)
      ensures startTime.Some? ==>
        currentDuration == GetCurrentDuration(now).value
        && shown == TimeFormat.FormatTime(currentDuration) && shownTime == shown
    {
      if startTime.None? {
        return DefaultDisplay;
      }
      currentDuration := Seconds(startTime.value, now);
      shown := TimeFormat.FormatTime(currentDuration);
      shownTime := shown;
    }

    /** `updateTimerWithAnimationFrame()`: a frame at `now` runs `updateTimer`
        and requests the next frame exactly when the timer is running. */
    method UpdateTimerWithAnimationFrame(now: Millis)
      requires Valid() && animationFrameMode
      modifies this`currentDuration, this`shownTime, this`animationFrame
      ensures Valid()
      ensures animationFrame <==> startTime.Some?
      ensures startTime.Some? ==> currentDuration == GetCurrentDuration(now).value
    {
      var shown := UpdateTimer(now);
      animationFrame := startTime.Some?;
    }

    /** `cleanup()`: releases whichever tick source is held; the start time and
        the speaker are left as they were. */
    method Cleanup()
      requires Valid()
      modifies this`interval, this`animationFrame
      ensures Valid()
      ensures !interval && !animationFrame
    {
      interval := false;
      animationFrame := false;
    }
  }

  /** Two stops in a row after one start record exactly one sample: the second
      stop finds the timer idle. */
  method DoubleStopRecordsOnce(animationFrameMode: bool) returns (samples: seq<real>, others: seq<real>)
    ensures samples == [2.0] && others == []
  {
    var m := new Meeting("standup", "2024-01-01");
    var t := new SpeakingTimer(m, animationFrameMode, DefaultDisplay);
    t.StartTimer(Women, 1000);
    t.StopTimer(3000);
    t.StopTimer(5000);
    samples := m.speakingData[Women];
    others := m.speakingData[Men] + m.speakingData[Nonbinary];
  }

  /** Switching speakers by a second `startTimer`: with interval ticks the first
      segment is committed; with animation-frame ticks (the configured mode) it
      is overwritten and lost, and only the second segment is recorded. */
  method SpeakerSwitch(animationFrameMode: bool) returns (men: seq<real>, women: seq<real>)
    ensures women == [3.0]
    ensures men == if animationFrameMode then [] else [5.0]
  {
    var m := new Meeting("retro", "2024-01-01");
    var t := new SpeakingTimer(m, animationFrameMode, DefaultDisplay);
    t.StartTimer(Men, 1000);
    t.StartTimer(Women, 6000);
    t.StopTimer(9000);
    men := m.speakingData[Men];
    women := m.speakingData[Women];
  }
}

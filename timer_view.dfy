/** The earlier timer popout (js/views/timerView.js): unlike the current
    popout it keeps its own timer that commits samples into the meeting it
    holds, and it tells the opener about every change by calling into it. */
module TimerWindowView {
  import opened Common
  import opened Config
  import opened Meetings
  import TimeFormat

  /** `CONFIG.DEFAULTS.MEETING_NAME`, not defined in config.js. */
  const DefaultMeetingName: string := "Meeting"

  /** The calls `notifyMainWindow` and `endMeeting` make on the opener. */
  datatype Notice = ChangeNotice(gender: string) | PausedNotice(duration: real) | EndedNotice

  /** `pauseSpeaking`'s commit: `duration` appended to `speaker`'s list,
      which is created first when the key is missing. */
  function Record(data: SpeakingData, speaker: string, duration: real): (r: SpeakingData)
    ensures r.Keys == data.Keys + {speaker}
    ensures r[speaker] == (if speaker in data then data[speaker] else []) + [duration]
    ensures forall g :: g in data && g != speaker ==> r[g] == data[g]
  {
    data[speaker := (if speaker in data then data[speaker] else []) + [duration]]
  }

  /** Recording a duration raises the speaker's time by that duration, and
      the meeting total by it when the speaker is one of the categories. */
  lemma RecordRaisesTotals(data: SpeakingData, speaker: string, duration: real)
    ensures SpeakingTime(Record(data, speaker, duration), speaker) == SpeakingTime(data, speaker) + duration
    ensures forall g :: g != speaker ==> SpeakingTime(Record(data, speaker, duration), g) == SpeakingTime(data, g)
    ensures AllSpeakingTime(Record(data, speaker, duration))
         == AllSpeakingTime(data) + (if speaker in Types then duration else 0.0)
  {
    var data' := if speaker in data then data else data[speaker := []];
    assert Record(data, speaker, duration) == data'[speaker := data'[speaker] + [duration]];
    AllSpeakingTimeUnfold(data);
    AllSpeakingTimeUnfold(data');
    AppendRaisesTotals(data', speaker, duration);
  }

  class TimerWindow {
    const meeting: Meeting
    /** `window.opener`, as far as this window can see it. */
    const opener: Peer
    var startTime: Option<Millis>
    var currentSpeaker: Option<string>
    /** An interval handle is held. */
    var interval: bool
    /** The timer display text. */
    var display: string
    /** Calls made on the opener, oldest first. */
    var notices: seq<Notice>
    /** The speaking data written as the completed meeting, once it is. */
    var completed: Option<SpeakingData>
    /** `window.close()` was called. */
    var closed: bool

    /** A held interval, a start time and a speaker come and go together. */
    ghost predicate Valid()
      reads this
    {
      (interval <==> startTime.Some?) && (startTime.Some? <==> currentSpeaker.Some?)
    }

    /** `new TimerWindow()` with `loadMeetingData`: the meeting the opener or
        storage supplied, or else a fresh record named after the default,
        dated `today`, with zero counts, empty lists and nobody speaking. */
    constructor (loaded: Meeting?, opener: Peer, today: string, display: string)
      ensures Valid()
      ensures loaded != null ==> meeting == loaded
      ensures loaded == null ==>
        fresh(meeting) && meeting.Valid() && meeting.name == DefaultMeetingName
        && meeting.date == today && meeting.participants == map[Men := 0, Women := 0, Nonbinary := 0]
        && meeting.speakingData == map[Men := [], Women := [], Nonbinary := []]
        && meeting.currentSpeaker == None
      ensures this.opener == opener && this.display == display
      ensures startTime == None && currentSpeaker == None && !interval
      ensures notices == [] && completed == None && !closed
    {
      if loaded != null {
        meeting := loaded;
      } else {
        meeting := new Meeting(DefaultMeetingName, today);
      }
      this.opener := opener;
      this.display := display;
      startTime := None;
      currentSpeaker := None;
      interval := false;
      notices := [];
      completed := None;
      closed := false;
    }

    /** The participant total `updateMeetingInfo` shows: the same sum as the
        meeting's `getTotalParticipants`. */
    function ParticipantTotal(): (total: int)
      reads this, meeting
      requires TypeSet <= meeting.participants.Keys
      ensures total == CountOver(meeting.participants, Types)
    {
      CountOverTypes(meeting.participants);
      meeting.participants[Types[0]] + meeting.participants[Types[1]] + meeting.participants[Types[2]]
    }

    /** `pauseSpeaking()` at `now`: a no-op unless a start time and a truthy
        speaker are held; otherwise the elapsed seconds are recorded for the
        speaker, the timer goes idle, the display is reset and the opener,
        when open, hears of the pause with its duration. */
    method PauseSpeaking(now: Millis)
      requires Valid()
      modifies this`startTime, this`currentSpeaker, this`interval, this`display, this`notices,
        meeting`speakingData
      ensures Valid()
      ensures old(startTime).None? || !Truthy(old(currentSpeaker)) ==>
        unchanged(this) && meeting.speakingData == old(meeting.speakingData)
      ensures old(startTime).Some? && Truthy(old(currentSpeaker)) ==>
        var d := Seconds(old(startTime).value, now);
        meeting.speakingData == Record(old(meeting.speakingData), old(currentSpeaker).value, d)
        && startTime == None && currentSpeaker == None && !interval && display == DefaultDisplay
        && notices == old(notices) + (if opener.IsOpen() then [PausedNotice(d)] else [])
    {
      if startTime.None? || !Truthy(currentSpeaker) {
        return;
      }
      var duration := Seconds(startTime.value, now);
      var speaker := currentSpeaker.value;
      if speaker !in meeting.speakingData {
        meeting.speakingData := meeting.speakingData[speaker := []];
      }
      meeting.speakingData := meeting.speakingData[speaker := meeting.speakingData[speaker] + [duration]];
      interval := false;
      startTime := None;
      currentSpeaker := None;
      display := DefaultDisplay;
      if opener.IsOpen() {
        notices := notices + [PausedNotice(duration)];
      }
    }

    /** `startSpeaking(gender)` at `now`: a running interval is paused first,
        which records it and tells the opener; then `gender` runs from `now`
        and the opener hears of the change. */
    method StartSpeaking(gender: string, now: Millis)
      requires Valid()
      modifies this`startTime, this`currentSpeaker, this`interval, this`display, this`notices,
        meeting`speakingData
      ensures Valid()
      ensures startTime == Some(now) && currentSpeaker == Some(gender) && interval
      ensures display == if old(interval) && Truthy(old(currentSpeaker)) then DefaultDisplay else old(display)
      ensures old(interval) && Truthy(old(currentSpeaker)) ==>
        var d := Seconds(old(startTime).value, now);
        meeting.speakingData == Record(old(meeting.speakingData), old(currentSpeaker).value, d)
        && notices == old(notices)
          + (if opener.IsOpen() then [PausedNotice(d), ChangeNotice(gender)] else [])
      ensures !(old(interval) && Truthy(old(currentSpeaker))) ==>
        meeting.speakingData == old(meeting.speakingData)
        && notices == old(notices) + (if opener.IsOpen() then [ChangeNotice(gender)] else [])
    {
      if interval {
        PauseSpeaking(now);
      }
      currentSpeaker := Some(gender);
      startTime := Some(now);
      interval := true;
      if opener.IsOpen() {
        notices := notices + [ChangeNotice(gender)];
      }
    }

    /** `updateTimer()` at `now`: nothing without a start time, otherwise the
        elapsed time as `mm:ss`. */
    method UpdateTimer(now: Millis)
      modifies this`display
      ensures startTime.None? ==> display == old(display)
      ensures startTime.Some? ==> display == TimeFormat.FormatTime(Seconds(startTime.value, now))
    {
      if startTime.None? {
        return;
      }
      var elapsed := Seconds(startTime.value, now);
      display := TimeFormat.FormatTime(elapsed);
    }

    /** `endMeeting()` at `now`: a running interval is paused (and recorded)
        before the meeting is written as completed, so the written data holds
        the last sample; then the opener, when open, hears of the end and the
        window closes unless that call throws. */
    method EndMeeting(now: Millis, notifyThrows: bool)
      requires Valid()
      modifies this`startTime, this`currentSpeaker, this`interval, this`display, this`notices,
        this`completed, this`closed, meeting`speakingData
      ensures Valid()
      ensures completed == Some(meeting.speakingData)
      ensures old(interval) && Truthy(old(currentSpeaker)) ==>
        meeting.speakingData
          == Record(old(meeting.speakingData), old(currentSpeaker).value, Seconds(old(startTime).value, now))
        && !interval && startTime == None && currentSpeaker == None && display == DefaultDisplay
      ensures !(old(interval) && Truthy(old(currentSpeaker))) ==>
        meeting.speakingData == old(meeting.speakingData)
        && startTime == old(startTime) && currentSpeaker == old(currentSpeaker)
        && interval == old(interval) && display == old(display)
      ensures notices == old(notices)
        + (if opener.IsOpen() && old(interval) && Truthy(old(currentSpeaker))
           then [PausedNotice(Seconds(old(startTime).value, now))] else [])
        + (if opener.IsOpen() then [EndedNotice] else [])
      ensures closed == (old(closed) || (opener.IsOpen() && !notifyThrows))
    {
      if interval {
        PauseSpeaking(now);
      }
      completed := Some(meeting.speakingData);
      if opener.IsOpen() {
        notices := notices + [EndedNotice];
        if !notifyThrows {
          closed := true;
        }
      }
    }
  }

  /** Switching from men to women in this window records the men's interval
      and tells the opener twice: the pause, then the change. */
  method SwitchNotifiesTwice() returns (notices: seq<Notice>, men: seq<real>)
    ensures notices == [ChangeNotice(Men), PausedNotice(3.0), ChangeNotice(Women)]
    ensures men == [3.0]
  {
    var w := new TimerWindow(null, OpenWindow, "2024-01-01", DefaultDisplay);
    w.StartSpeaking(Men, 1000);
    w.StartSpeaking(Women, 4000);
    notices := w.notices;
    men := w.meeting.speakingData[Men];
  }
}

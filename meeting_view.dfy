/** The earlier main-window view (js/views/meetingView.js): it drives the
    shared speaking timer from its buttons, forwards each action to the timer
    window by calling into it, and takes the timer window's updates as string
    actions. */
module MeetingScreen {
  import opened Common
  import opened Config
  import opened Meetings
  import opened Timer

  /** The category the nonbinary button of this view starts: not a key of
      any speaking data the rest of the program creates. */
  const NonBinaryButton: string := "nonBinary"

  /** The actions `handleTimerWindowUpdate` dispatches on. */
  const SpeakerChangeAction: string := "speakerChange"
  const SpeakerPausedAction: string := "speakerPaused"
  const MeetingEndedAction: string := "meetingEnded"

  /** The calls made on the timer window (`timerWindow.timerWindow.*`). */
  datatype Forward = StartForward(gender: string) | PauseForward

  /** A segment timed under the nonbinary button is dropped on commit: the
      meeting's lists are keyed `nonbinary`, not `nonBinary`. */
  lemma NonBinaryButtonDropped(data: SpeakingData, d: real)
    requires data.Keys == TypeSet
    ensures Commit(data, Some(NonBinaryButton), d) == data
    ensures Commit(data, Some(Nonbinary), d)[Nonbinary] == data[Nonbinary] + [d]
  {
    assert NonBinaryButton != Nonbinary && NonBinaryButton != Men && NonBinaryButton != Women;
  }

  class MeetingView {
    /** `this.meeting`: replaced when the timer window reports the end. */
    var meeting: Meeting
    /** The timer, built on the meeting the view started with. */
    const timer: SpeakingTimer
    /** `this.timerWindow`. */
    var timerWindow: Peer
    /** Calls made on the timer window, oldest first. */
    var forwarded: seq<Forward>
    /** Meetings handed to `StorageManager.saveMeeting`, oldest first. */
    var saved: seq<Meeting>
    /** `App.navigateTo('stats')` was called. */
    var navigatedToStats: bool
    /** Alerts shown (popup blocked). */
    var alerts: nat

    /** The timer ticks as configured and is consistent. */
    ghost predicate Valid()
      reads this, timer
    {
      timer.Valid() && timer.animationFrameMode == UpdateAnimationFrame
    }

    /** `new MeetingView()` with the meeting storage returned: a new idle
        timer on it and no timer window. */
    constructor (meeting: Meeting)
      ensures Valid()
      ensures this.meeting == meeting && fresh(timer) && timer.meeting == meeting
      ensures timer.startTime == None
      ensures timerWindow == NoWindow && forwarded == [] && saved == [] && !navigatedToStats && alerts == 0
    {
      this.meeting := meeting;
      timer := new SpeakingTimer(meeting, UpdateAnimationFrame, DefaultDisplay);
      timerWindow := NoWindow;
      forwarded := [];
      saved := [];
      navigatedToStats := false;
      alerts := 0;
    }

    /** `openTimerWindow()`: the window if the browser granted one, otherwise
        no window and an alert. */
    method OpenTimerWindow(granted: bool)
      modifies this`timerWindow, this`alerts
      ensures timerWindow == if granted then OpenWindow else NoWindow
      ensures alerts == old(alerts) + (if granted then 0 else 1)
    {
      timerWindow := if granted then OpenWindow else NoWindow;
      if !granted {
        alerts := alerts + 1;
      }
    }

    /** `startSpeaking(gender, updateTimerWindow)` at `now`: the timer runs
        for `gender` (a switch records nothing, the timer ticking on animation
        frames), and the timer window is told only when asked to and open. */
    method StartSpeaking(gender: string, updateTimerWindow: bool, now: Millis)
      requires Valid()
      modifies timer, timer.meeting`speakingData, timer.meeting`currentSpeaker, this`forwarded
      ensures Valid()
      ensures timer.startTime == Some(now) && timer.meeting.currentSpeaker == Some(gender)
      ensures timer.meeting.speakingData == old(timer.meeting.speakingData)
      ensures forwarded == old(forwarded)
        + (if updateTimerWindow && timerWindow.IsOpen() then [StartForward(gender)] else [])
    {
      timer.StartTimer(gender, now);
      if updateTimerWindow && timerWindow.IsOpen() {
        forwarded := forwarded + [StartForward(gender)];
      }
    }

    /** `pauseSpeaking(updateTimerWindow)` at `now`: the timer stops (and
        commits a running segment), and the timer window is told only when
        asked to and open. */
    method PauseSpeaking(updateTimerWindow: bool, now: Millis)
      requires Valid()
      modifies timer, timer.meeting`speakingData, timer.meeting`currentSpeaker, this`forwarded
      ensures Valid()
      ensures timer.startTime == None
      ensures timer.meeting.speakingData == if old(timer.startTime).None? then old(timer.meeting.speakingData)
        else Commit(old(timer.meeting.speakingData), old(timer.meeting.currentSpeaker),
                    Seconds(old(timer.startTime).value, now))
      ensures forwarded == old(forwarded)
        + (if updateTimerWindow && timerWindow.IsOpen() then [PauseForward] else [])
    {
      timer.StopTimer(now);
      if updateTimerWindow && timerWindow.IsOpen() {
        forwarded := forwarded + [PauseForward];
      }
    }

    /** `endMeeting()` at `now`: the timer stops (committing a running
        segment), the meeting is saved and the statistics screen shown. The
        meeting is not marked inactive. */
    method EndMeeting(now: Millis)
      requires Valid()
      modifies timer, timer.meeting`speakingData, timer.meeting`currentSpeaker, this`saved,
        this`navigatedToStats
      ensures Valid()
      ensures timer.startTime == None
      ensures timer.meeting.speakingData == if old(timer.startTime).None? then old(timer.meeting.speakingData)
        else Commit(old(timer.meeting.speakingData), old(timer.meeting.currentSpeaker),
                    Seconds(old(timer.startTime).value, now))
      ensures saved == old(saved) + [meeting] && navigatedToStats
      ensures meeting.active == old(meeting.active)
    {
      timer.StopTimer(now);
      saved := saved + [meeting];
      navigatedToStats := true;
    }

    /** `handleTimerWindowUpdate(action, data)` at `now`: a speaker change
        starts `gender` and a pause pauses, neither forwarding back; the end
        adopts, saves and shows the meeting sent along, when there is one;
        any other action does nothing. */
    method HandleTimerWindowUpdate(action: string, gender: string, sentMeeting: Meeting?, now: Millis)
      requires Valid()
      modifies timer, timer.meeting`speakingData, timer.meeting`currentSpeaker, this`forwarded,
        this`meeting, this`saved, this`navigatedToStats
      ensures Valid()
      ensures forwarded == old(forwarded)
      ensures action in {SpeakerChangeAction, SpeakerPausedAction} ==>
        meeting == old(meeting) && saved == old(saved) && navigatedToStats == old(navigatedToStats)
      ensures action == SpeakerChangeAction ==>
        timer.startTime == Some(now) && timer.meeting.currentSpeaker == Some(gender)
        && timer.meeting.speakingData == old(timer.meeting.speakingData)
      ensures action == SpeakerPausedAction ==>
        timer.startTime == None
        && timer.meeting.speakingData == if old(timer.startTime).None? then old(timer.meeting.speakingData)
          else Commit(old(timer.meeting.speakingData), old(timer.meeting.currentSpeaker),
                      Seconds(old(timer.startTime).value, now))
      ensures action == MeetingEndedAction && sentMeeting != null ==>
        meeting == sentMeeting && saved == old(saved) + [sentMeeting] && navigatedToStats
        && unchanged(timer) && unchanged(timer.meeting)
      ensures action == MeetingEndedAction && sentMeeting == null ==>
        unchanged(this) && unchanged(timer) && unchanged(timer.meeting)
      ensures action !in {SpeakerChangeAction, SpeakerPausedAction, MeetingEndedAction} ==>
        unchanged(this) && unchanged(timer) && unchanged(timer.meeting)
    {
      if action == SpeakerChangeAction {
        StartSpeaking(gender, false, now);
      } else if action == SpeakerPausedAction {
        PauseSpeaking(false, now);
      } else if action == MeetingEndedAction {
        if sentMeeting != null {
          meeting := sentMeeting;
          saved := saved + [meeting];
          navigatedToStats := true;
        }
      }
    }
  }

  /** Timing someone under the nonbinary button and pausing records nothing
      anywhere; the same under the `nonbinary` category records the segment. */
  method NonBinaryButtonRecordsNothing() returns (before: SpeakingData, after: SpeakingData)
    ensures after == before
  {
    var m := new Meeting("Standup", "2024-01-01");
    var v := new MeetingView(m);
    before := m.speakingData;
    v.StartSpeaking(NonBinaryButton, true, 1000);
    v.PauseSpeaking(true, 3000);
    NonBinaryButtonDropped(before, 2.0);
    after := m.speakingData;
  }
}

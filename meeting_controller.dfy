/** The main window's meeting controller (js/controllers/meetingController.js):
    drives the shared speaking timer, keeps the popout in step through
    messages, publishes speaker changes on the event bus and holds the
    wake-lock flags. */
module MeetingControl {
  import opened Common
  import opened Config
  import opened Meetings
  import opened Messages
  import opened Timer

  /** `participants[k] > 0`; a missing key reads `undefined`, which is not `> 0`. */
  predicate HasParticipants(p: map<string, int>, k: string)
  {
    k in p && p[k] > 0
  }

  /** The visibility flags the main window computes, under the keys as written:
      `women` from `types[0]`, `nonbinary` from `types[1]`, `men` from `types[2]`. */
  function VisibleButtons(p: map<string, int>): (v: Visibility)
    ensures v.women <==> HasParticipants(p, Men)
    ensures v.nonbinary <==> HasParticipants(p, Women)
    ensures v.men <==> HasParticipants(p, Nonbinary)
  {
    Visibility(HasParticipants(p, Types[0]), HasParticipants(p, Types[1]), HasParticipants(p, Types[2]))
  }

  /** `wakeLockActive` after `activateWakeLock()`: it turns on only when
      supported, an instance exists and `enable()` does not throw. */
  function ActivatedFlag(supported: bool, noSleep: bool, active: bool, enableThrows: bool): bool
  {
    if !supported || !noSleep || active then active else !enableThrows
  }

  /** `wakeLockActive` after `deactivateWakeLock()`. */
  function DeactivatedFlag(supported: bool, noSleep: bool, active: bool, disableThrows: bool): bool
  {
    if !supported || !noSleep || !active then active else disableThrows
  }

  /** Activating twice is activating once, deactivating twice is deactivating
      once, and without support the flag never turns on. */
  lemma WakeLockIdempotent(supported: bool, noSleep: bool, active: bool, throws: bool)
    ensures ActivatedFlag(supported, noSleep, ActivatedFlag(supported, noSleep, active, throws), throws)
         == ActivatedFlag(supported, noSleep, active, throws)
    ensures DeactivatedFlag(supported, noSleep, DeactivatedFlag(supported, noSleep, active, throws), throws)
         == DeactivatedFlag(supported, noSleep, active, throws)
    ensures !supported ==> ActivatedFlag(supported, noSleep, active, throws) == active
    ensures ActivatedFlag(supported, noSleep, active, false) <==> active || (supported && noSleep)
    ensures !DeactivatedFlag(supported, noSleep, active, false) <==> !active || (supported && noSleep)
  {
  }

  class MeetingController {
    const meeting: Meeting
    const timer: SpeakingTimer
    /** `window.location.origin` of the main window. */
    const origin: string
    /** `this.timerWindow`. */
    var timerWindow: Peer
    var wakeLockSupported: bool
    /** A `NoSleep` instance exists (`this.noSleep` truthy). */
    var noSleep: bool
    var wakeLockActive: bool
    /** Messages posted to the popout, oldest first. */
    var outbox: seq<ToTimer>
    /** Events published on the bus, oldest first. */
    var published: seq<BusEvent>
    /** The arguments of the last `setButtonVisibility` call. */
    var shownButtons: Visibility
    /** Alerts shown (`ERROR_POPOUT_BLOCKED`). */
    var alerts: nat
    /** `App.navigateTo(STATS)` was called. */
    var navigatedToStats: bool

    ghost predicate Valid()
      reads this, meeting, timer
    {
      meeting.Valid() && timer.meeting == meeting && timer.Valid()
      && timer.animationFrameMode == UpdateAnimationFrame
      && (wakeLockActive ==> wakeLockSupported && noSleep)
    }

    /** `new MeetingController(meeting, view)`: the meeting becomes active, the
        timer is new and idle, there is no popout, wake-lock support needs the
        library loaded and its constructor not to throw, and the buttons show
        the categories with participants. */
    constructor (meeting: Meeting, origin: string, noSleepLoaded: bool, noSleepThrows: bool)
      requires meeting.Valid()
      modifies meeting`active
      ensures Valid()
      ensures this.meeting == meeting && this.origin == origin && meeting.active
      ensures fresh(timer) && timer.startTime == None && timer.currentSpeaker == None
      ensures timerWindow == NoWindow && !wakeLockActive
      ensures wakeLockSupported == (noSleepLoaded && !noSleepThrows) && noSleep == wakeLockSupported
      ensures outbox == [] && published == [] && alerts == 0 && !navigatedToStats
      ensures shownButtons == VisibleButtons(meeting.participants)
    {
      this.meeting := meeting;
      timer := new SpeakingTimer(meeting, UpdateAnimationFrame, DefaultDisplay);
      this.origin := origin;
      timerWindow := NoWindow;
      var supported := noSleepLoaded;
      var instance := false;
      if supported {
        if noSleepThrows {
          supported := false;
        } else {
          instance := true;
        }
      }
      wakeLockSupported := supported;
      noSleep := instance;
      wakeLockActive := false;
      outbox := [];
      published := [];
      alerts := 0;
      navigatedToStats := false;
      shownButtons := VisibleButtons(meeting.participants);
      new;
      meeting.active := true;
    }

    /** The constructor's guard: no controller for a missing meeting (the source
        throws), otherwise one over that meeting, now active. */
    static method Create(meeting: Meeting?, origin: string, noSleepLoaded: bool, noSleepThrows: bool)
      returns (c: MeetingController?)
      requires meeting != null ==> meeting.Valid()
      modifies meeting
      ensures c == null <==> meeting == null
      ensures c != null ==> fresh(c) && c.Valid() && c.meeting == meeting && meeting.active
    {
      if meeting == null {
        return null;
      }
      c := new MeetingController(meeting, origin, noSleepLoaded, noSleepThrows);
    }

    /** `handleBeforeUnload(event)`: closing the main window asks for
        confirmation exactly while the meeting is active. */
    function BeforeUnloadWarns(): (warns: bool)
      reads this, meeting
      ensures warns <==> meeting.active
    {
      meeting.active
    }

    /** `activateWakeLock()`; `enableThrows` is whether `noSleep.enable()` throws. */
    method ActivateWakeLock(enableThrows: bool)
      requires Valid()
      modifies this`wakeLockActive
      ensures Valid()
      ensures wakeLockActive == ActivatedFlag(wakeLockSupported, noSleep, old(wakeLockActive), enableThrows)
    {
      if !wakeLockSupported || !noSleep || wakeLockActive {
        return;
      }
      if !enableThrows {
        wakeLockActive := true;
      }
    }

    /** `deactivateWakeLock()`; `disableThrows` is whether `noSleep.disable()` throws. */
    method DeactivateWakeLock(disableThrows: bool)
      requires Valid()
      modifies this`wakeLockActive
      ensures Valid()
      ensures wakeLockActive == DeactivatedFlag(wakeLockSupported, noSleep, old(wakeLockActive), disableThrows)
    {
      if !wakeLockSupported || !noSleep || !wakeLockActive {
        return;
      }
      if !disableThrows {
        wakeLockActive := false;
      }
    }

    /** `startSpeaking(gender, updateTimerWindow)` at `now`. The wake lock is
        requested if off, the timer starts for `gender`, `SPEAKER_CHANGE` is
        posted to the popout only when asked to and the popout is open, and the
        change is published in every case. With the configured animation-frame
        ticks the timer holds no interval, so a start records no sample, even
        when it replaces a running speaker. */
    method StartSpeaking(gender: string, updateTimerWindow: bool, now: Millis, enableThrows: bool)
      requires Valid()
      modifies this, timer, meeting`speakingData, meeting`currentSpeaker
      ensures Valid()
      ensures timer.startTime == Some(now) && timer.currentSpeaker == Some(gender)
      ensures meeting.currentSpeaker == Some(gender)
      ensures meeting.speakingData == old(meeting.speakingData)
      ensures wakeLockActive == ActivatedFlag(wakeLockSupported, noSleep, old(wakeLockActive), enableThrows)
      ensures outbox == old(outbox)
        + (if updateTimerWindow && timerWindow.IsOpen() then [TimerSpeakerChange(Some(gender))] else [])
      ensures published == old(published) + [SpeakerChangeEvent(Some(gender))]
      ensures timerWindow == old(timerWindow) && alerts == old(alerts)
      ensures navigatedToStats == old(navigatedToStats) && shownButtons == old(shownButtons)
    {
      if !wakeLockActive {
        ActivateWakeLock(enableThrows);
      }
      timer.StartTimer(gender, now);
      if updateTimerWindow && timerWindow.IsOpen() {
        outbox := outbox + [TimerSpeakerChange(Some(gender))];
      }
      published := published + [SpeakerChangeEvent(Some(gender))];
    }

    /** `pauseSpeaking(updateTimerWindow)` at `now`. The wake lock is released,
        the timer stops (committing the running segment, if any), `SPEAKER_PAUSED`
        is posted only when asked to and the popout is open, and a change without
        a gender is published in every case. */
    method PauseSpeaking(updateTimerWindow: bool, now: Millis, disableThrows: bool)
      requires Valid()
      modifies this, timer, meeting`speakingData, meeting`currentSpeaker
      ensures Valid()
      ensures timer.startTime == None && timer.currentSpeaker == None
      ensures old(timer.startTime).Some? ==> meeting.currentSpeaker == None
      ensures old(timer.startTime).None? ==> meeting.currentSpeaker == old(meeting.currentSpeaker)
      ensures meeting.speakingData == if old(timer.startTime).Some?
        then Commit(old(meeting.speakingData), old(meeting.currentSpeaker), old(timer.GetCurrentDuration(now)).value)
        else old(meeting.speakingData)
      ensures wakeLockActive == DeactivatedFlag(wakeLockSupported, noSleep, old(wakeLockActive), disableThrows)
      ensures outbox == old(outbox)
        + (if updateTimerWindow && timerWindow.IsOpen() then [TimerSpeakerPaused] else [])
      ensures published == old(published) + [SpeakerChangeEvent(None)]
      ensures timerWindow == old(timerWindow) && alerts == old(alerts)
      ensures navigatedToStats == old(navigatedToStats) && shownButtons == old(shownButtons)
    {
      DeactivateWakeLock(disableThrows);
      timer.StopTimer(now);
      if updateTimerWindow && timerWindow.IsOpen() {
        outbox := outbox + [TimerSpeakerPaused];
      }
      published := published + [SpeakerChangeEvent(None)];
    }

    /** `openTimerWindow()`: `granted` is whether `window.open` returned a
        window. A blocked popup leaves no window and shows an alert. */
    method OpenTimerWindow(granted: bool) returns (w: Peer)
      requires Valid()
      modifies this`timerWindow, this`alerts
      ensures Valid()
      ensures w == timerWindow
      ensures granted ==> timerWindow == OpenWindow && alerts == old(alerts)
      ensures !granted ==> timerWindow == NoWindow && alerts == old(alerts) + 1
    {
      if !granted {
        timerWindow := NoWindow;
        alerts := alerts + 1;
        return NoWindow;
      }
      timerWindow := OpenWindow;
      w := timerWindow;
    }

    /** The popout's `beforeunload` listener: the reference is dropped. */
    method HandleTimerWindowUnload()
      modifies this`timerWindow
      ensures timerWindow == NoWindow
    {
      timerWindow := NoWindow;
    }

    /** The `INIT` message `initializeTimerWindow` builds at `now`. */
    function InitPayload(now: Millis): (m: ToTimer)
      reads this, meeting, timer
      requires Valid()
      ensures m.Init? && m.meetingName == Some(meeting.name)
      ensures m.currentSpeaker == timer.currentSpeaker
      ensures m.visibleButtons == Some(VisibleButtons(meeting.participants))
      ensures !Truthy(timer.currentSpeaker) ==> m.elapsedTime == 0.0
      ensures Truthy(timer.currentSpeaker) ==> Some(m.elapsedTime) == timer.GetCurrentDuration(now)
    {
      var elapsed :=
        if Truthy(timer.currentSpeaker) then
          match timer.GetCurrentDuration(now)
          case None => 0.0
          case Some(d) => if d == 0.0 then 0.0 else d
        else 0.0;
      Init(Some(meeting.name), Some(VisibleButtons(meeting.participants)), timer.currentSpeaker, elapsed)
    }

    /** `initializeTimerWindow()` at `now`: posts the `INIT` payload when the
        popout is open, and nothing otherwise. */
    method InitializeTimerWindow(now: Millis)
      requires Valid()
      modifies this`outbox
      ensures outbox == old(outbox) + (if timerWindow.IsOpen() then [InitPayload(now)] else [])
    {
      if timerWindow.IsOpen() {
        outbox := outbox + [InitPayload(now)];
      }
    }

    /** `endMeeting()` at `now`: the timer stops (committing the running
        segment), the meeting becomes inactive, an open popout is closed, and
        `MEETING_ENDED` is published. */
    method EndMeeting(now: Millis)
      requires Valid()
      modifies this, timer, meeting`speakingData, meeting`currentSpeaker, meeting`active
      ensures Valid()
      ensures !meeting.active && !BeforeUnloadWarns()
      ensures timer.startTime == None && timer.currentSpeaker == None
      ensures meeting.speakingData == if old(timer.startTime).Some?
        then Commit(old(meeting.speakingData), old(meeting.currentSpeaker), old(timer.GetCurrentDuration(now)).value)
        else old(meeting.speakingData)
      ensures !timerWindow.IsOpen()
      ensures published == old(published) + [MeetingEndedEvent]
      ensures outbox == old(outbox) && wakeLockActive == old(wakeLockActive)
      ensures navigatedToStats == old(navigatedToStats) && alerts == old(alerts)
      ensures shownButtons == old(shownButtons)
    {
      timer.StopTimer(now);
      meeting.active := false;
      if timerWindow.IsOpen() {
        timerWindow := ClosedWindow;
      }
      published := published + [MeetingEndedEvent];
    }

    /** `handleTimerWindowMessage(event)` at `now`. A message from another origin
        changes nothing. `WINDOW_READY` sends `INIT`; a speaker change with a
        truthy gender starts it without posting back; a pause pauses without
        posting back; `MEETING_ENDED` ends the meeting and goes to the statistics;
        any other type does nothing. Only `WINDOW_READY` posts to the popout. */
    method HandleTimerWindowMessage(event: Envelope<ToMain>, now: Millis, wakeLockThrows: bool)
      requires Valid()
      modifies this, timer, meeting`speakingData, meeting`currentSpeaker, meeting`active
      ensures Valid()
      ensures event.origin != origin ==>
        unchanged(this) && unchanged(timer) && unchanged(meeting)
      ensures event.origin == origin && event.data.WindowReady? ==>
        outbox == old(outbox) + (if timerWindow.IsOpen() then [InitPayload(now)] else [])
        && published == old(published) && unchanged(timer) && unchanged(meeting)
        && wakeLockActive == old(wakeLockActive)
      ensures event.origin == origin && !event.data.MainMeetingEnded? ==>
        timerWindow == old(timerWindow) && alerts == old(alerts)
        && navigatedToStats == old(navigatedToStats) && shownButtons == old(shownButtons)
      ensures !(event.origin == origin && event.data.WindowReady?) ==> outbox == old(outbox)
      ensures event.origin == origin && event.data.MainSpeakerChange? && Truthy(event.data.gender) ==>
        timer.currentSpeaker == event.data.gender && timer.startTime == Some(now)
        && meeting.currentSpeaker == event.data.gender
        && meeting.speakingData == old(meeting.speakingData)
        && wakeLockActive == ActivatedFlag(wakeLockSupported, noSleep, old(wakeLockActive), wakeLockThrows)
        && published == old(published) + [SpeakerChangeEvent(event.data.gender)]
      ensures event.origin == origin && event.data.MainSpeakerPaused? ==>
        timer.startTime == None && timer.currentSpeaker == None
        && (old(timer.startTime).Some? ==> meeting.currentSpeaker == None)
        && (old(timer.startTime).None? ==> meeting.currentSpeaker == old(meeting.currentSpeaker))
        && wakeLockActive == DeactivatedFlag(wakeLockSupported, noSleep, old(wakeLockActive), wakeLockThrows)
        && published == old(published) + [SpeakerChangeEvent(None)]
        && meeting.speakingData == if old(timer.startTime).Some?
          then Commit(old(meeting.speakingData), old(meeting.currentSpeaker), old(timer.GetCurrentDuration(now)).value)
          else old(meeting.speakingData)
      ensures event.origin == origin && event.data.MainMeetingEnded? ==>
        !meeting.active && navigatedToStats && !timerWindow.IsOpen()
        && alerts == old(alerts) && shownButtons == old(shownButtons)
        && wakeLockActive == old(wakeLockActive)
        && timer.startTime == None && timer.currentSpeaker == None
        && published == old(published) + [MeetingEndedEvent]
        && meeting.speakingData == if old(timer.startTime).Some?
          then Commit(old(meeting.speakingData), old(meeting.currentSpeaker), old(timer.GetCurrentDuration(now)).value)
          else old(meeting.speakingData)
      ensures (event.origin == origin
               && (event.data.OtherToMain? || (event.data.MainSpeakerChange? && !Truthy(event.data.gender)))) ==>
        unchanged(this) && unchanged(timer) && unchanged(meeting)
    {
      if event.origin != origin {
        return;
      }
      match event.data {
        case WindowReady =>
          InitializeTimerWindow(now);
        case MainSpeakerChange(gender) =>
          if Truthy(gender) {
            StartSpeaking(gender.value, false, now, wakeLockThrows);
          }
        case MainSpeakerPaused =>
          PauseSpeaking(false, now, wakeLockThrows);
        case MainMeetingEnded =>
          EndMeeting(now);
          navigatedToStats := true;
        case OtherToMain(_) =>
      }
    }

    /** `updateVisibleButtons()`: shows the categories with participants, under
        the keys as written. */
    method UpdateVisibleButtons()
      modifies this`shownButtons
      ensures shownButtons == VisibleButtons(meeting.participants)
    {
      shownButtons := VisibleButtons(meeting.participants);
    }
  }

  /** Switching speakers from `men` to `women` in the main window and then
      pausing records, with animation-frame ticks, only the segment that was
      paused: the switch itself records nothing. */
  method SwitchThenPause() returns (men: seq<real>, women: seq<real>)
    ensures men == [] && women == [6.0]
  {
    var m := new Meeting("planning", "2024-05-02");
    var c := new MeetingController(m, "https://example.org", true, false);
    c.StartSpeaking(Men, false, 1000, false);
    c.StartSpeaking(Women, false, 4000, false);
    assert m.speakingData == map[Men := [], Women := [], Nonbinary := []];
    assert m.currentSpeaker == Some(Women) && c.timer.GetCurrentDuration(10000) == Some(6.0);
    c.PauseSpeaking(false, 10000, false);
    men := m.speakingData[Men];
    women := m.speakingData[Women];
  }

  /** With the popout open, starting and pausing a speaker each post one
      message to it, in order. */
  method SessionPosts() returns (posted: seq<ToTimer>)
    ensures posted == [TimerSpeakerChange(Some(Men)), TimerSpeakerPaused]
  {
    var m := new Meeting("planning", "2024-05-02");
    var c := new MeetingController(m, "https://example.org", true, false);
    var _ := c.OpenTimerWindow(true);
    c.StartSpeaking(Men, true, 1000, false);
    c.PauseSpeaking(true, 10000, false);
    posted := c.outbox;
  }

  /** Starting, pausing and ending each publish one event, in order, whether
      or not a popout is open. */
  method SessionEvents() returns (events: seq<BusEvent>)
    ensures events == [SpeakerChangeEvent(Some(Men)), SpeakerChangeEvent(None), MeetingEndedEvent]
  {
    var m := new Meeting("planning", "2024-05-02");
    var c := new MeetingController(m, "https://example.org", true, false);
    c.StartSpeaking(Men, true, 1000, false);
    c.PauseSpeaking(true, 10000, false);
    c.EndMeeting(12000);
    events := c.published;
  }

  /** The page warns before closing while the meeting runs, and no longer
      once it has ended. */
  method EndClearsWarning() returns (warnsBefore: bool, warnsAfter: bool)
    ensures warnsBefore && !warnsAfter
  {
    var m := new Meeting("planning", "2024-05-02");
    var c := new MeetingController(m, "https://example.org", true, false);
    c.StartSpeaking(Men, false, 1000, false);
    warnsBefore := c.BeforeUnloadWarns();
    c.EndMeeting(3000);
    warnsAfter := c.BeforeUnloadWarns();
  }

  /** Messages from the popout never echo back, and one from a foreign origin
      is ignored entirely. */
  method NoEcho() returns (posted: seq<ToTimer>, speaker: Option<string>, samples: seq<real>)
    ensures posted == [] && speaker == None && samples == [2.5]
  {
    var m := new Meeting("review", "2024-05-02");
    var c := new MeetingController(m, "https://example.org", false, false);
    var w := c.OpenTimerWindow(true);
    c.HandleTimerWindowMessage(Envelope("https://example.org", MainSpeakerChange(Some(Nonbinary))), 1000, false);
    c.HandleTimerWindowMessage(Envelope("https://evil.example", MainSpeakerPaused), 2000, false);
    assert m.speakingData == map[Men := [], Women := [], Nonbinary := []];
    assert m.currentSpeaker == Some(Nonbinary) && c.timer.startTime == Some(1000);
    c.HandleTimerWindowMessage(Envelope("https://example.org", MainSpeakerPaused), 3500, false);
    assert Seconds(1000, 3500) == 2.5;
    posted := c.outbox;
    speaker := c.timer.currentSpeaker;
    samples := m.speakingData[Nonbinary];
  }
}

/** The timer popout's controller (js/controllers/timerPopOutController.js):
    a local timer for display only, which records no sample anywhere, forwards
    the user's actions to the opener window and never echoes back what the
    opener sent. */
module PopOut {
  import opened Common
  import opened Config
  import opened Messages
  import TimeFormat

  class TimerPopOutController {
    /** `window.location.origin` of the popout. */
    const origin: string
    /** `window.opener`, as far as the popout can see it. */
    var opener: Peer
    var startTime: Option<Millis>
    /** An interval handle is held. */
    var interval: bool
    var currentSpeaker: Option<string>
    /** Messages posted to the opener, oldest first. */
    var outbox: seq<ToMain>
    /** The timer display text. */
    var display: string
    /** The meeting name shown, once an `INIT` carried a truthy one. */
    var meetingInfo: Option<string>
    /** The button visibility last received in an `INIT`. */
    var buttons: Option<Visibility>
    /** Alerts shown (`MEETING_COMPLETED`). */
    var alerts: nat
    /** The window is due to close (`setTimeout(() => window.close(), 100)`). */
    var closeScheduled: bool

    /** A held interval means a running timer; a start time goes with a speaker. */
    ghost predicate Valid()
      reads this
    {
      (interval ==> startTime.Some?) && (startTime.Some? <==> currentSpeaker.Some?)
    }

    /** `new TimerPopOutController(view)`: idle, nothing sent. */
    constructor (origin: string, opener: Peer, display: string)
      ensures Valid()
      ensures this.origin == origin && this.opener == opener && this.display == display
      ensures startTime == None && !interval && currentSpeaker == None
      ensures outbox == [] && meetingInfo == None && buttons == None
      ensures alerts == 0 && !closeScheduled
    {
      this.origin := origin;
      this.opener := opener;
      startTime := None;
      interval := false;
      currentSpeaker := None;
      outbox := [];
      this.display := display;
      meetingInfo := None;
      buttons := None;
      alerts := 0;
      closeScheduled := false;
    }

    /** `pauseSpeaking(notifyMainWindow)`: a no-op unless a start time and a
        truthy speaker are held; otherwise the timer goes idle, the display is
        reset, and `SPEAKER_PAUSED` is posted only when asked to and the opener
        is open. The duration the source computes here is never stored. */
    method PauseSpeaking(notifyMainWindow: bool)
      requires Valid()
      modifies this`interval, this`startTime, this`currentSpeaker, this`display, this`outbox
      ensures Valid()
      ensures old(startTime).None? || !Truthy(old(currentSpeaker)) ==> unchanged(this)
      ensures old(startTime).Some? && Truthy(old(currentSpeaker)) ==>
        !interval && startTime == None && currentSpeaker == None && display == DefaultDisplay
        && outbox == old(outbox) + (if notifyMainWindow && opener.IsOpen() then [MainSpeakerPaused] else [])
    {
      if startTime.None? || !Truthy(currentSpeaker) {
        return;
      }
      interval := false;
      startTime := None;
      currentSpeaker := None;
      display := DefaultDisplay;
      if notifyMainWindow && opener.IsOpen() {
        outbox := outbox + [MainSpeakerPaused];
      }
    }

    /** `startSpeaking(gender, notifyMainWindow)` at `now`: a running interval is
        first paused silently; then `gender` runs from `now`, and
        `SPEAKER_CHANGE` is posted only when asked to and the opener is open,
        so a start posts at most one message. */
    method StartSpeaking(gender: string, notifyMainWindow: bool, now: Millis)
      requires Valid()
      modifies this`interval, this`startTime, this`currentSpeaker, this`display, this`outbox
      ensures Valid()
      ensures startTime == Some(now) && currentSpeaker == Some(gender) && interval
      ensures outbox == old(outbox)
        + (if notifyMainWindow && opener.IsOpen() then [MainSpeakerChange(Some(gender))] else [])
      ensures display == if old(interval) && Truthy(old(currentSpeaker)) then DefaultDisplay else old(display)
    {
      if interval {
        PauseSpeaking(false);
      }
      currentSpeaker := Some(gender);
      startTime := Some(now);
      interval := true;
      if notifyMainWindow && opener.IsOpen() {
        outbox := outbox + [MainSpeakerChange(Some(gender))];
      }
    }

    /** `updateTimer()`: a tick at `now`. With no start time it does nothing;
        otherwise the display shows the elapsed time as `mm:ss`. */
    method UpdateTimer(now: Millis)
      modifies this`display
      ensures startTime.None? ==> display == old(display)
      ensures startTime.Some? ==> display == TimeFormat.FormatTime(Seconds(startTime.value, now))
    {
      if startTime.None? {
        return;
      }
      var elapsed := Seconds(startTime.value, now);
      display := TimeFormat.FormatTime(elapsed);
    }

    /** `handleMainWindowMessage(event)` at `now`: a message from another origin
        is ignored. `INIT` shows the meeting name (when truthy) and the button
        visibility, and nothing else: the timer does not resume from the
        elapsed time it carries. A speaker change with a truthy gender starts
        silently and a pause pauses silently; any other type does nothing.
        Nothing is ever posted back. */
    method HandleMainWindowMessage(event: Envelope<ToTimer>, now: Millis)
      requires Valid()
      modifies this`interval, this`startTime, this`currentSpeaker, this`display, this`outbox,
        this`meetingInfo, this`buttons
      ensures Valid()
      ensures outbox == old(outbox)
      ensures event.origin != origin ==> unchanged(this)
      ensures event.origin == origin && event.data.Init? ==>
        startTime == old(startTime) && currentSpeaker == old(currentSpeaker) && interval == old(interval)
        && display == old(display)
        && meetingInfo == (if Truthy(event.data.meetingName) then event.data.meetingName else old(meetingInfo))
        && buttons == (if event.data.visibleButtons.Some? then event.data.visibleButtons else old(buttons))
      ensures event.origin == origin && event.data.TimerSpeakerChange? && Truthy(event.data.gender) ==>
        startTime == Some(now) && currentSpeaker == event.data.gender && interval
        && display == if old(interval) && Truthy(old(currentSpeaker)) then DefaultDisplay else old(display)
      ensures (event.origin == origin && event.data.TimerSpeakerPaused? && old(startTime).Some?
               && Truthy(old(currentSpeaker))) ==>
        startTime == None && currentSpeaker == None && !interval && display == DefaultDisplay
      ensures (event.origin == origin && event.data.TimerSpeakerPaused?
               && !(old(startTime).Some? && Truthy(old(currentSpeaker)))) ==>
        unchanged(this)
      ensures event.origin == origin && (event.data.TimerSpeakerChange? || event.data.TimerSpeakerPaused?) ==>
        meetingInfo == old(meetingInfo) && buttons == old(buttons)
      ensures (event.origin == origin
               && (event.data.OtherToTimer? || (event.data.TimerSpeakerChange? && !Truthy(event.data.gender)))) ==>
        unchanged(this)
    {
      if event.origin != origin {
        return;
      }
      match event.data {
        case Init(name, visible, _, _) =>
          if Truthy(name) {
            meetingInfo := name;
          }
          if visible.Some? {
            buttons := visible;
          }
        case TimerSpeakerChange(gender) =>
          if Truthy(gender) {
            StartSpeaking(gender.value, false, now);
          }
        case TimerSpeakerPaused =>
          PauseSpeaking(false);
        case OtherToTimer(_) =>
      }
    }

    /** `endMeeting()`: a running interval is paused with notification; then
        `MEETING_ENDED` is posted and the window set to close when the opener
        is open, and otherwise an alert is shown and nothing is posted. */
    method EndMeeting()
      requires Valid()
      modifies this`interval, this`startTime, this`currentSpeaker, this`display, this`outbox,
        this`alerts, this`closeScheduled
      ensures Valid()
      ensures outbox == old(outbox)
        + (if old(interval) && Truthy(old(currentSpeaker)) && opener.IsOpen() then [MainSpeakerPaused] else [])
        + (if opener.IsOpen() then [MainMeetingEnded] else [])
      ensures closeScheduled == (old(closeScheduled) || opener.IsOpen())
      ensures alerts == old(alerts) + (if opener.IsOpen() then 0 else 1)
      ensures old(interval) && Truthy(old(currentSpeaker)) ==>
        !interval && startTime == None && currentSpeaker == None && display == DefaultDisplay
      ensures !(old(interval) && Truthy(old(currentSpeaker))) ==>
        startTime == old(startTime) && currentSpeaker == old(currentSpeaker)
        && interval == old(interval) && display == old(display)
    {
      if interval {
        PauseSpeaking(true);
      }
      if opener.IsOpen() {
        outbox := outbox + [MainMeetingEnded];
        closeScheduled := true;
      } else {
        alerts := alerts + 1;
      }
    }

    /** `cleanup()`: releases the interval; the start time and the speaker are
        left as they were. */
    method Cleanup()
      requires Valid()
      modifies this`interval
      ensures Valid()
      ensures !interval
    {
      if interval {
        interval := false;
      }
    }
  }

  /** A user switching speakers in the popout posts one `SPEAKER_CHANGE` per
      click and no pause in between; ending the meeting then posts
      `SPEAKER_PAUSED` before `MEETING_ENDED`. */
  method PopOutSession() returns (afterSwitch: seq<ToMain>, afterEnd: seq<ToMain>)
    ensures afterSwitch == [MainSpeakerChange(Some(Men)), MainSpeakerChange(Some(Women))]
    ensures afterEnd == afterSwitch + [MainSpeakerPaused, MainMeetingEnded]
  {
    var c := new TimerPopOutController("https://example.org", OpenWindow, DefaultDisplay);
    c.StartSpeaking(Men, true, 1000);
    c.StartSpeaking(Women, true, 4000);
    afterSwitch := c.outbox;
    c.EndMeeting();
    afterEnd := c.outbox;
  }

  /** Messages from the opener are applied but never echoed: after a change and
      a pause from the main window the popout is idle and has posted nothing. */
  method MirrorsWithoutEcho() returns (posted: seq<ToMain>, idle: bool)
    ensures posted == [] && idle
  {
    var c := new TimerPopOutController("https://example.org", OpenWindow, DefaultDisplay);
    c.HandleMainWindowMessage(Envelope("https://example.org", TimerSpeakerChange(Some(Nonbinary))), 1000);
    c.HandleMainWindowMessage(Envelope("https://example.org", TimerSpeakerPaused), 2000);
    posted := c.outbox;
    idle := c.startTime.None? && !c.interval;
  }
}

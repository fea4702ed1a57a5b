/** The messages the main window and the timer popout exchange through
    `postMessage`, and the events the main window publishes on the event bus.
    Each message carries its `type` and its `data` payload. */
module Messages {
  import opened Common

  /** The `visibleButtons` record of the `INIT` payload. */
  datatype Visibility = Visibility(women: bool, nonbinary: bool, men: bool)

  /** Messages the popout receives (`CONFIG.COMMUNICATION.WINDOW.TO_TIMER.*`);
      `OtherToTimer` stands for any `type` outside the handled ones. */
  datatype ToTimer =
    | Init(meetingName: Option<string>, visibleButtons: Option<Visibility>,
           currentSpeaker: Option<string>, elapsedTime: real)
    | TimerSpeakerChange(gender: Option<string>)
    | TimerSpeakerPaused
    | OtherToTimer(kind: string)

  /** Messages the main window receives (`CONFIG.COMMUNICATION.WINDOW.TO_MAIN.*`). */
  datatype ToMain =
    | WindowReady
    | MainSpeakerChange(gender: Option<string>)
    | MainSpeakerPaused
    | MainMeetingEnded
    | OtherToMain(kind: string)

  /** A `MessageEvent`: the sender's origin and the message. */
  datatype Envelope<M> = Envelope(origin: string, data: M)

  /** What `eventBus.publish` is called with by the main window:
      `SPEAKER_CHANGE` with a gender (start) or without one (pause), and `MEETING_ENDED`. */
  datatype BusEvent = SpeakerChangeEvent(gender: Option<string>) | MeetingEndedEvent
}

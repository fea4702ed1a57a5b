# Look Who's Talking — speaking-time bookkeeping in Dafny

Look Who's Talking is a browser meeting timer. It measures how long men, women
and nonbinary participants speak, and afterwards compares each category's
speaking time with its fair share by head count. This project models the
bookkeeping core of that program and proves what it promises.

The model covers the following parts:

- **The shared speaking timer** (`Timer`, js/models/timer.js). It is idle, or running for one
  category since a clock reading. Stopping commits exactly one duration
  sample. The tick source (interval or animation frame) is a constant of the
  timer, and both modes are proved. Only an interval handle makes a second
  start commit the running segment. With the configured animation-frame ticks, a
  speaker switch records nothing.
- **The meeting record** (`Meetings`, js/models/meeting.js). It holds the participant counts and
  the per-category lists of samples, with their totals.
- **The main-window controller** (`MeetingControl`, js/controllers/meetingController.js). It
  covers:
  - the start, pause and end transitions over the timer;
  - the origin-checked dispatcher for the popout's messages, which never
    echoes back;
  - the `INIT` payload;
  - the wake-lock flags;
  - the page-close warning.
- **The popout controller** (`PopOut`, js/controllers/timerPopOutController.js). Its timer is
  for display only and records nothing. It forwards the user's actions to
  the opener and never echoes the opener's messages. `INIT` does not resume
  a running interval.
- **The event bus** (`Bus`, js/utils/eventBus.js). It maps event names to ordered lists of callback
  ids. The model covers subscribe, the returned unsubscribe, publish (which
  goes on past a throwing callback) and clear.
- **The statistics** (`Statistics`, `StatsControl`, `StatsScreen`). This is
  `calculateStats` of js/controllers/statsController.js and its copy in
  js/views/statsView.js: counts, sums, guarded averages and fair-share
  apportionment over the reals. It also covers the over/under-fair lines of
  the older statistics screen and the guarded `mm:ss` format.
- **The two setup validators** (`SetupControl`, `SetupScreen`, over
  `SetupForms`). Each is an ordered chain of checks, and both save the three
  counts, under different keys. They read different properties of their
  view: the controller reads `nonbinaryCount` and calls `showAlert`, and
  the `SetupView` it is documented to take has `nonBinaryCount` and no
  `showAlert`. So on a `SetupView` the controller never saves. The two
  agree only on a view that offers both under one element.
- **The two earlier views** that still carry logic:
  - the popout of js/views/timerView.js (`TimerWindowView`), which records
    samples itself;
  - the main view of js/views/meetingView.js (`MeetingScreen`), whose
    nonbinary button times a `nonBinary` category that no speaking data has.

The clock is an explicit `now: Millis` parameter, a positive number of
milliseconds. A window held by the other window is a `Peer`: no window, an open
one, or a closed one. Every `postMessage`, call on the other window and
`eventBus.publish` is an append to an outbox sequence of the object that sends
it. An exception that may or may not be thrown becomes a boolean parameter:
`enable()` or `disable()` of the wake-lock library, a storage write, the
popout's call into the opener.

A constant that js/utils/config.js does not define is chosen as follows:
- the timer display's default text is `00:00`, which the format gives for zero;
- the `mm:ss` separator is `:`, and each field is padded to two characters
  with `0`;
- the controller's minimum headcount is a parameter;
- the default meeting name of js/views/timerView.js is `Meeting`.

## Model

| member | source | states |
|---|---|---|
| Meetings.Meeting.constructor | js/models/meeting.js:15-35 | A new meeting has zero counts and empty lists for the three categories, is inactive, and nobody is speaking. |
| Meetings.Meeting.SetParticipants | js/models/meeting.js:43-47 | The counts of the three categories become the three arguments in order, nothing else changes, and the participant total is their sum. |
| Meetings.Meeting.GetTotalParticipants | js/models/meeting.js:52-54 | The total is the sum of the three category counts. |
| Meetings.CountOverTypes | js/models/meeting.js:52-54 | Folding the counts over the category list in order gives the sum of the three counts. |
| Meetings.Meeting.GetTotalSpeakingTime | js/models/meeting.js:61-66 | A category without a list has spoken 0 seconds. Otherwise its time is the sum of its samples. |
| Meetings.Meeting.GetAllSpeakingTime | js/models/meeting.js:72-78 | The loop's total is the sum of the three categories' speaking times. |
| Meetings.AllSpeakingTimeUnfold | js/models/meeting.js:72-78 | The total over the category list is the sum of the three categories' times. |
| Meetings.AppendRaisesTotals | js/models/meeting.js:61-78 | Appending a duration to a category raises its time by that duration and leaves every other category's time alone. It raises the meeting total by the duration exactly when the category is one of the three. |
| Timer.Commit | js/models/timer.js:67-73 | Committing a segment never adds or removes a category's list. |
| Timer.CommitAppendsOnce | js/models/timer.js:67-73 | A commit appends exactly one sample to the speaker's list and leaves every other list as it was. It drops the sample when the speaker is null or empty or has no list. |
| Timer.CommitRaisesTotal | js/models/timer.js:67-73 | A commit raises the meeting total and the speaker's time by the duration exactly when the speaker is a category with a list. Every other category is unchanged. |
| Timer.SpeakingTimer.constructor | js/models/timer.js:14-20 | A new timer is idle, holds no tick source and has a current duration of 0. |
| Timer.SpeakingTimer.GetCurrentDuration | js/models/timer.js:141-144 | The duration is null exactly when idle. Otherwise it is the seconds since the start, and it is non-negative when the clock has not gone back. |
| Timer.SpeakingTimer.StopTimer | js/models/timer.js:63-90 | On an idle timer nothing changes. On a running one, exactly one sample of the elapsed seconds is committed under the meeting's current speaker, and every other list is kept. The tick source is released, the start and both speakers are cleared, and the display is reset. |
| Timer.SpeakingTimer.StartTimer | js/models/timer.js:27-46 | The running segment is committed first only when an interval handle is held. Then the category becomes the speaker of the timer and of the meeting from `now`, and the configured tick source runs. |
| Timer.SpeakingTimer.UpdateTimer | js/models/timer.js:97-107 | An idle tick returns the default display and changes nothing. A running tick stores the elapsed seconds and shows and returns them as `mm:ss`. |
| Timer.SpeakingTimer.UpdateTimerWithAnimationFrame | js/models/timer.js:52-57 | A frame updates the timer and requests the next frame exactly while the timer runs. |
| Timer.SpeakingTimer.Cleanup | js/models/timer.js:151-160 | Both tick sources are released. The start time and the speaker are left as they were. |
| Timer.DoubleStopRecordsOnce | js/models/timer.js:63-90 | In either tick mode, one start followed by two stops records exactly one sample, and the other categories record none. |
| Timer.SpeakerSwitch | js/models/timer.js:27-46 | With interval ticks, a second start commits the first segment. With animation-frame ticks, that segment is lost and only the second one is recorded. |
| TimeFormat.FormatTime | js/models/timer.js:128-135 | A non-negative duration shows as digits, a ':' and exactly two digits. Below 100 minutes it is exactly five characters, `mm:ss`. |
| TimeFormat.FormatZero | js/models/timer.js:128-135 | A duration of zero shows as `00:00`, the default display. |
| TimeFormat.ClockFields | js/models/timer.js:128-135 | For a non-negative duration, the minutes field is whole seconds div 60 and the seconds field is whole seconds mod 60, so it is below 60. |
| TimeFormat.DecodeFormatTime | js/models/timer.js:128-135 | The display of a non-negative duration reads back as the pair (whole seconds div 60, whole seconds mod 60). |
| Statistics.CalculateStats | js/controllers/statsController.js:72-128 | The four passes over the categories compute exactly `StatsOf` of the meeting's data and counts, and only read the meeting. The copy in js/views/statsView.js (lines 26-82) is the same code. |
| Statistics.InitialStats | js/controllers/statsController.js:83-89 | The record starts with a total of 0 and a 0 under every category in every measure. |
| Statistics.Zeros | js/controllers/statsController.js:83-89 | The zero record has every category in every measure, each with value 0. |
| Statistics.CountStatements | js/controllers/statsController.js:92-97 | Each category's count is the length of its list and its time the sum of its samples. The total grows by the meeting's total speaking time, and the other measures are untouched. |
| Statistics.StatsTotals | js/controllers/statsController.js:92-97 | Every measure has exactly the three categories. The total time is the sum of the three category times, and each category's time and count are the sum and the length of its list. |
| Statistics.AverageStatements | js/controllers/statsController.js:100-114 | A category with statements gets its mean statement, and one with participants gets its time per participant. Where the count is not positive, the value already there is kept. |
| Statistics.AveragesGuarded | js/controllers/statsController.js:100-114 | No average divides by zero. A zero count gives 0, and a positive count gives the category's time divided by it. |
| Statistics.AverageTimesCount | js/controllers/statsController.js:100-114 | A guarded mean times its positive count gives back the sum. With no positive count, the mean is 0. |
| Statistics.AveragesAssembled | js/controllers/statsController.js:100-114 | The averaging pass over the counted record gives exactly the guarded averages of `StatsOf`. |
| Statistics.TotalParticipants | js/controllers/statsController.js:117-118 | The reduce over the categories gives the sum of the three counts. |
| Statistics.DistributeFairly | js/controllers/statsController.js:120-126 | With participants, each category's fair share is the total time times its count over the head count. |
| Statistics.FairAssembled | js/controllers/statsController.js:117-126 | The fair pass, or its absence without participants, leaves exactly the fair shares of `StatsOf`. |
| Statistics.Assemble | js/controllers/statsController.js:72-128 | The four passes compose to `StatsOf`. The zeros of the first pass are what a non-positive count leaves in place. |
| Statistics.FairSharesSumToTotal | js/controllers/statsController.js:117-126 | With participants, the fair shares add up to the total time. Without participants, every fair share is 0. |
| Statistics.FairDistributionEntry | js/views/statsView.js:71-80 | Each category's fair share is its share of the total time by head count. |
| Statistics.FairShareTimes | js/views/statsView.js:71-80 | A positive head count times a fair share is the total times the category's count, so the shares are proportional to the counts. |
| Statistics.FairShareExample | js/controllers/statsController.js:120-126 | Two men and three women sharing 50 seconds get fair shares of 20 and 30 seconds, and nonbinary gets 0. |
| Statistics.StatsFormatTime | js/controllers/statsController.js:136-143 | The zero guard changes nothing: on every duration the statistics' format equals the timer's `mm:ss` format, because that format shows the default display for 0. The copy in js/views/statsView.js (lines 171-178) is the same code. |
| Statistics.StatsFormatAgrees | js/controllers/statsController.js:136-143 | A non-negative time in the statistics reads back as its whole minutes and the whole seconds left over, zero included. |
| StatsControl.StatsController.constructor | js/controllers/statsController.js:14-25 | The controller holds the meeting and its statistics. |
| StatsControl.StatsController.Create | js/controllers/statsController.js:14-25 | No controller exists for a missing meeting. Otherwise there is one with that meeting's statistics. |
| StatsControl.StatsController.RefreshData | js/controllers/statsController.js:44-51 | A stored meeting replaces the held one and the statistics are recomputed from it. Without one, nothing changes. |
| StatsScreen.Fairness | js/views/statsView.js:151-159 | A category is over its fair share exactly when it spoke more than that share. The text shows the distance between the two either way, and exactly the fair share reads as under, with the default display. |
| StatsScreen.StatsView.constructor | js/views/statsView.js:12-18 | The view holds the meeting and its statistics. |
| StatsScreen.StatsView.Create | js/views/statsView.js:12-18 | No view exists for a missing meeting, since the source throws on its first read of `this.meeting.speakingData` (line 47). Otherwise there is one with that meeting's statistics. |
| StatsScreen.StatsView.FairnessLines | js/views/statsView.js:148-162 | One line per category, in category order, each with that category's verdict and difference. |
| StatsScreen.NotAllOverFair | js/views/statsView.js:148-162 | With participants, at least one category is not over its fair share, because the shares add up to what was spoken. |
| StatsScreen.NoParticipantsOverFair | js/views/statsView.js:148-162 | Without participants every share is 0, so a category is over exactly when it spoke at all. |
| Bus.EventBus.constructor | js/utils/eventBus.js:11-13 | A new bus has no subscriptions. |
| Bus.SubscribeTable | js/utils/eventBus.js:22-26 | The event's list is created if absent and the callback goes at its end. Every other event is unchanged. |
| Bus.EventBus.Subscribe | js/utils/eventBus.js:21-35 | The table becomes `SubscribeTable` of the old one. The returned closure unsubscribes that callback from that event, and no list is left empty. |
| Bus.SubscribeKeepsNoEmptyLists | js/utils/eventBus.js:21-35 | Subscribing never leaves an empty list in the table. |
| Bus.WithoutContents | js/utils/eventBus.js:30 | The filter removes every occurrence of the callback and keeps every other one. |
| Bus.WithoutKeepsOrder | js/utils/eventBus.js:30 | The filtered list is the original list read at an ascending sequence of positions, and those positions are exactly the ones not holding the callback. So the callbacks that stay keep their relative order, repeated ids included. |
| Bus.UnsubscribeTable | js/utils/eventBus.js:29-34 | Unsubscribing touches only that event's entry and adds no key. |
| Bus.UnsubscribeRemoves | js/utils/eventBus.js:29-34 | After unsubscribing, the callback is on no list of the event and the others stay. The key disappears exactly when only that callback was subscribed, and no empty list is left. |
| Bus.EventBus.Unsubscribe | js/utils/eventBus.js:29-34 | The table becomes `UnsubscribeTable` of the old one and keeps no empty list. |
| Bus.SubscribeUnsubscribe | js/utils/eventBus.js:21-35 | Unsubscribing a callback that was not yet on the event's list exactly undoes its subscription. |
| Bus.Failures | js/utils/eventBus.js:48-54 | The failures are exactly the called callbacks that throw, in call order. |
| Bus.EventBus.Publish | js/utils/eventBus.js:43-55 | An event without a key calls nothing. Otherwise every callback on its list is called in subscription order, a throwing one does not stop later ones, and the table is not changed. |
| Bus.ClearTable | js/utils/eventBus.js:62-68 | Clearing a named event removes only its key. Clearing without a name empties the table. |
| Bus.EventBus.Clear | js/utils/eventBus.js:62-68 | The table becomes `ClearTable` of the old one. |
| Bus.SubscribePublishUnsubscribe | js/utils/eventBus.js:21-55 | A new subscriber is called last, and a throwing first callback does not stop the second. Unsubscribing restores the earlier callback list. |
| MeetingControl.MeetingController.constructor | js/controllers/meetingController.js:14-50 | The meeting becomes active and the new timer is idle. There is no popout and the wake lock is off. Support needs the library loaded and its constructor not to throw. The buttons show the categories with participants. |
| MeetingControl.MeetingController.Create | js/controllers/meetingController.js:15-23 | No controller exists for a missing meeting. Otherwise there is one, and the meeting is active. |
| MeetingControl.MeetingController.BeforeUnloadWarns | js/controllers/meetingController.js:52-59 | Closing the page asks for confirmation exactly while the meeting is active. |
| MeetingControl.WakeLockIdempotent | js/controllers/meetingController.js:244-275 | Activating twice is activating once, and deactivating twice is deactivating once. Without support the flag never turns on. Without a throw, activation leaves the flag on when the lock is supported and already on; deactivation turns it off when supported. |
| MeetingControl.MeetingController.ActivateWakeLock | js/controllers/meetingController.js:244-257 | The flag becomes `ActivatedFlag` of the old one, and it is on only when supported. |
| MeetingControl.MeetingController.DeactivateWakeLock | js/controllers/meetingController.js:263-275 | The flag becomes `DeactivatedFlag` of the old one. |
| MeetingControl.MeetingController.StartSpeaking | js/controllers/meetingController.js:76-99 | The timer and the meeting run for the category from `now`, and no sample is recorded under animation-frame ticks. `SPEAKER_CHANGE` is posted only when asked and the popout is open. The change is published every time, and nothing else changes. |
| MeetingControl.MeetingController.PauseSpeaking | js/controllers/meetingController.js:106-126 | The timer stops. A running segment is committed exactly once and the meeting's speaker is cleared; on an idle timer the data and the meeting's speaker stay as they were. `SPEAKER_PAUSED` is posted only when asked and the popout is open. A change without a gender is published every time. |
| MeetingControl.MeetingController.OpenTimerWindow | js/controllers/meetingController.js:131-145 | A granted popup becomes the open popout. A blocked one leaves no popout and shows one alert. |
| MeetingControl.MeetingController.HandleTimerWindowUnload | js/controllers/meetingController.js:140-142 | The popout's unload drops the reference. |
| MeetingControl.VisibleButtons | js/controllers/meetingController.js:159-163 | The flags use the keys as written: `women` from the men count, `nonbinary` from the women count, `men` from the nonbinary count. Each flag is on exactly when that count exists and is positive. |
| MeetingControl.MeetingController.InitPayload | js/controllers/meetingController.js:150-168 | `INIT` carries the meeting name, the visibility flags and the timer's speaker. The elapsed time is 0 without a truthy speaker, and the current duration otherwise. |
| MeetingControl.MeetingController.InitializeTimerWindow | js/controllers/meetingController.js:147-170 | The `INIT` payload is posted exactly when the popout is open. |
| MeetingControl.MeetingController.EndMeeting | js/controllers/meetingController.js:210-222 | The timer stops and commits a running segment. The meeting becomes inactive, so closing no longer warns. An open popout is closed, `MEETING_ENDED` is published, and nothing is posted. |
| MeetingControl.MeetingController.HandleTimerWindowMessage | js/controllers/meetingController.js:178-204 | A foreign origin changes nothing. `WINDOW_READY` sends `INIT` and leaves the timer, the meeting and the wake lock as they were. A truthy speaker change starts, activating the wake lock, and a pause pauses, deactivating it, neither posting back. The end commits a running segment, stops the timer, deactivates the meeting, leaves no popout open and goes to the statistics, with the wake lock kept. Every case but the end keeps the popout reference, the alerts, the navigation flag and the buttons, and any other type changes nothing. |
| MeetingControl.MeetingController.UpdateVisibleButtons | js/controllers/meetingController.js:228-238 | The buttons shown are `VisibleButtons` of the participant counts. |
| MeetingControl.SwitchThenPause | js/controllers/meetingController.js:76-126 | A switch from men to women followed by a pause records only the women's segment. |
| MeetingControl.SessionPosts | js/controllers/meetingController.js:76-126 | With the popout open, a start and a pause post one message each, in order. |
| MeetingControl.SessionEvents | js/controllers/meetingController.js:76-222 | A start, a pause and an end publish one event each, in order, even without a popout. |
| MeetingControl.EndClearsWarning | js/controllers/meetingController.js:210-222 | The page warns before closing while a meeting runs, and no longer once it has ended. |
| MeetingControl.NoEcho | js/controllers/meetingController.js:178-204 | Messages from the popout post nothing back. A pause from a foreign origin is ignored, and the real pause records one sample of 2.5 seconds. |
| PopOut.TimerPopOutController.constructor | js/controllers/timerPopOutController.js:13-21 | A new popout controller is idle and has sent nothing. |
| PopOut.TimerPopOutController.PauseSpeaking | js/controllers/timerPopOutController.js:112-139 | It does nothing unless a start and a truthy speaker are held. Otherwise the timer goes idle, nothing is recorded anywhere, and `SPEAKER_PAUSED` is posted only when asked and the opener is open. |
| PopOut.TimerPopOutController.StartSpeaking | js/controllers/timerPopOutController.js:80-104 | A running interval is paused silently first. The category then runs from `now`, and at most one message, `SPEAKER_CHANGE`, is posted. |
| PopOut.TimerPopOutController.UpdateTimer | js/controllers/timerPopOutController.js:145-154 | Without a start time a tick does nothing. Otherwise it shows the elapsed time as `mm:ss`. |
| PopOut.TimerPopOutController.HandleMainWindowMessage | js/controllers/timerPopOutController.js:37-71 | A foreign origin changes nothing. `INIT` updates only the name and the buttons and never resumes the timer. Changes and pauses apply silently and leave the name and the buttons alone; a pause on an idle popout changes nothing. Other types change nothing, and nothing is ever posted. |
| PopOut.TimerPopOutController.EndMeeting | js/controllers/timerPopOutController.js:160-183 | A running interval with a truthy speaker is paused, leaving the timer idle and the display reset; otherwise the timer and the display are kept. With the opener open, that pause posts `SPEAKER_PAUSED` first, then `MEETING_ENDED`, and the window is set to close. With the opener closed, nothing is posted and one alert is shown. |
| PopOut.TimerPopOutController.Cleanup | js/controllers/timerPopOutController.js:189-194 | The interval is released. The start time and the speaker are left as they were. |
| PopOut.PopOutSession | js/controllers/timerPopOutController.js:80-183 | A switch posts one change per click with no pause in between. Ending then posts the pause before the end. |
| PopOut.MirrorsWithoutEcho | js/controllers/timerPopOutController.js:37-71 | After a change and a pause from the opener, the popout is idle and has posted nothing. |
| SetupForms.Trim | js/controllers/setupController.js:75 | Trimming keeps a prefix of the start-trimmed name, and what is left neither starts nor ends with JavaScript white space. |
| SetupForms.TrimEmpty | js/controllers/setupController.js:75 | A name trims to nothing exactly when every character is JavaScript white space. |
| SetupForms.CountValue | js/controllers/setupController.js:85-87 | A missing count element or an empty value reads 0, and a number reads as itself. |
| SetupControl.Alerted | js/controllers/setupController.js:76 | An alert is shown when the view has `showAlert`. Otherwise the call throws and the exception escapes. |
| SetupControl.SaveMeetingData | js/controllers/setupController.js:101-134 | The save succeeds exactly when the women, `nonbinaryCount` and men inputs exist and storage does not throw. A failure is caught and reported, or escapes when the view has no `showAlert`. The saved name and date are the inputs. |
| SetupControl.ValidateForm | js/controllers/setupController.js:74-94 | Checks run in order: name, then date, then the headcount of the women, `nonbinaryCount` and men inputs against the minimum, and only then the save. Each rejection carries its own alert. An exception escapes exactly when the form is not saved and the view has no `showAlert`. |
| SetupControl.BlankNameRejected | js/controllers/setupController.js:75-78 | A name of white space only is rejected with `NAME_REQUIRED`, whatever else the form holds, or throws on a view without `showAlert`. |
| SetupControl.SavedCounts | js/controllers/setupController.js:110-114 | The saved counts are men←women input, women←nonbinary input, nonbinary←men input. Their sum is the headcount that was checked. |
| SetupControl.ButtonsFollowInputs | js/controllers/setupController.js:110-114 | The main window's rotated read-back undoes the rotated save, so each button shows exactly when its own input counted someone. |
| SetupScreen.SaveMeetingData | js/views/setupView.js:60-75 | The save succeeds exactly when the men, women and `nonBinaryCount` inputs exist and storage does not throw. Otherwise the exception escapes. |
| SetupScreen.ValidateForm | js/views/setupView.js:33-58 | Checks run in order: name, then date, then a headcount of the men, women and `nonBinaryCount` inputs of at least 2, and only then the save. It never reports a failed save. |
| SetupScreen.SavedKeys | js/views/setupView.js:64-68 | The counts are saved under `men`, `women` and `nonBinary` from the matching inputs, with no `nonbinary` key. |
| SetupScreen.ControllerOnSetupView | js/controllers/setupController.js:74-134 | Given a `SetupView` (js/views/setupView.js:3-13), which has `nonBinaryCount` but no `nonbinaryCount` and no `showAlert`, the controller's headcount leaves the nonbinary input out, and every run of its validator throws, so it never saves. |
| SetupScreen.NonbinaryInputIgnored | js/controllers/setupController.js:85-92 | One man and one nonbinary participant: the view saves the form, while the controller, even on a view with `showAlert`, counts one participant and rejects it for too few participants. |
| SetupScreen.OutcomesAgree | js/views/setupView.js:33-58 | On a view where the controller's `nonbinaryCount` is the view's `nonBinaryCount` and `showAlert` exists, and with the controller's minimum at 2, both validators reject the same forms with the same alert and save the same forms. A caught save failure corresponds to an escaping one. |
| SetupScreen.SavedDataAgree | js/views/setupView.js:64-68 | Under the same shared-input hypothesis, where both save, they store the same name and date, and each input's count under a different key. |
| SetupScreen.ValidatorsAgree | js/views/setupView.js:33-58 | The two facts above combined, for every view that meets the shared-input hypothesis. |
| TimerWindowView.Record | js/views/timerView.js:160-166 | The duration is appended to the speaker's list, which is created when missing. Every other list is kept. |
| TimerWindowView.RecordRaisesTotals | js/views/timerView.js:160-166 | Recording raises the speaker's time by the duration. It raises the meeting total by it when the speaker is a category. |
| TimerWindowView.TimerWindow.constructor | js/views/timerView.js:67-81 | Without a loaded meeting, the window uses a fresh record with the default name, zero counts, empty lists and nobody speaking. |
| TimerWindowView.TimerWindow.ParticipantTotal | js/views/timerView.js:91-93 | The total shown is the meeting's participant total. |
| TimerWindowView.TimerWindow.PauseSpeaking | js/views/timerView.js:157-181 | It does nothing unless a start and a truthy speaker are held. Otherwise exactly one duration is recorded, the timer is idle afterwards, and an open opener hears of the pause. |
| TimerWindowView.TimerWindow.StartSpeaking | js/views/timerView.js:135-151 | A running interval is first paused and recorded, which resets the display; otherwise the display is kept. The opener then hears of the pause and of the change, in that order. |
| TimerWindowView.TimerWindow.UpdateTimer | js/views/timerView.js:190-199 | Without a start time a tick does nothing. Otherwise it shows the elapsed time. |
| TimerWindowView.TimerWindow.EndMeeting | js/views/timerView.js:251-273 | A running interval is paused and recorded before the meeting is written, leaving the timer idle and the display reset; otherwise the timer and the display are kept. Then the opener hears of the end, and the window closes unless that call throws. |
| TimerWindowView.SwitchNotifiesTwice | js/views/timerView.js:135-151 | A switch from men to women records the men's segment and notifies the pause, then the change. |
| MeetingScreen.MeetingView.constructor | js/views/meetingView.js:10-39 | A new timer runs on the meeting storage returned, with no timer window. |
| MeetingScreen.MeetingView.OpenTimerWindow | js/views/meetingView.js:55-62 | A granted window is open. A blocked one leaves none and shows one alert. |
| MeetingScreen.MeetingView.StartSpeaking | js/views/meetingView.js:94-106 | The timer runs for the category and records nothing. The timer window is told only when asked and open. |
| MeetingScreen.MeetingView.PauseSpeaking | js/views/meetingView.js:108-120 | The timer stops and commits a running segment. The timer window is told only when asked and open. |
| MeetingScreen.MeetingView.EndMeeting | js/views/meetingView.js:122-126 | The timer stops and commits, the meeting is saved and the statistics are shown. The meeting stays active. |
| MeetingScreen.MeetingView.HandleTimerWindowUpdate | js/views/meetingView.js:69-92 | A change starts and a pause pauses, neither forwarding back, and both keep the held meeting, the saved list and the navigation flag. The end adopts, saves and shows a meeting sent along, leaving the timer and its meeting untouched, and otherwise changes nothing. Any other action changes nothing. |
| MeetingScreen.NonBinaryButtonDropped | js/views/meetingView.js:47 | A segment timed under the `nonBinary` button is dropped on commit, while the `nonbinary` category records it. |
| MeetingScreen.NonBinaryButtonRecordsNothing | js/views/meetingView.js:44-50 | Timing someone under the nonbinary button and pausing leaves the speaking data unchanged. |

## Left out

- Rendering and presentation are not modelled. This covers:
  - DOM writes, charts and button classes;
  - the theme, alert and drag-handling helpers;
  - js/views/timerPopOutView.js.
  Alerts are only counted, and the timer display is a string field.
- Scheduling is reduced to calls. `setInterval`, `requestAnimationFrame` and `setTimeout` become a held-handle boolean. A tick is a call to the guarded update, and the popout's delayed close is a flag.
- Storage, JSON and navigation are not modelled: js/utils/storage.js, `saveData`, `loadMeetingData`'s fallback chain, js/app.js and `exportToPdf`. What storage returns becomes a parameter, a failing write becomes a boolean, and only the default record of js/views/timerView.js is modelled.
- Cross-window delivery (`postMessage`, `window.open`, `window.opener`, `.closed`) becomes a `Peer` value and outbox sequences. Delivery, loss and interleaving between the two windows are concurrency and are not modelled.
- The wake-lock library is only its two flags. Whether `enable()` or `disable()` throws is a parameter.
- Floating point is not modelled: durations and statistics are reals, and `now` is an integer.
- `parseInt`, `NaN` and `isNaN` are not modelled. A count input holds a number, an empty value or no element. The `isNaN` guards of both `formatTime`s are therefore not modelled.
- Statistics.CalculateStats: requires a list and a count for every category. A category without a list makes the source throw on `times.length` (js/controllers/statsController.js:93-94). A missing count throws nothing: `undefined > 0` is false, so its time per participant stays 0, and the participant total becomes `NaN`, so every fair share stays 0. Neither path is modelled. A new `Meeting` has all three counts, and js/utils/storage.js supplies all three on its fallback paths (lines 37-42 and 59-63); a stored record that lacks one is the case left out.
- Statistics.FairDistributionEntry: states proportionality entrywise, with the product facts kept in `Statistics.FairShareTimes` over plain reals, rather than as one product over the whole record.
- SetupScreen.OutcomesAgree, SetupScreen.SavedDataAgree, SetupScreen.ValidatorsAgree: these hold only when both validators read one nonbinary element and the view has `showAlert`. On a real `SetupView` they do not agree: `SetupScreen.ControllerOnSetupView` and `SetupScreen.NonbinaryInputIgnored` state what happens instead.
- Bus.EventBus.Unsubscribe: requires the event's key. Calling the closure after `clear` or after the last subscriber left throws in the source and is not modelled.
- The subscriptions and cleanup of the two controllers, and the `setupCompleted` publish, are not modelled: the statistics controller's `MEETING_ENDED` subscription, `MeetingController.cleanup` and `TimerPopOutController.setupWindowCommunication`. They register listeners and release them, with no bookkeeping of their own. The re-entrant calls a callback could make are left out with them.
- MeetingScreen.MeetingView.constructor: takes a meeting that is not null. `getCurrentMeeting()` of js/utils/storage.js can return null, and js/views/meetingView.js (lines 27-28) then builds the timer on null, with no check and no way back to setup. The first use of that meeting throws later, for instance at js/models/timer.js:35. This path is not modelled.
- MeetingScreen.MeetingView.HandleTimerWindowUpdate: takes the action's `data.gender` as a string. A change without a gender is not modelled.
- TimerWindowView.TimerWindow.EndMeeting: the alert js/views/timerView.js shows when the opener is gone is not modelled. The `if` that tests the opener is missing its closing brace (lines 262-274), so, counted as written, the brace after the alert closes `endMeeting` and `class TimerWindow` is never closed. The file as written does not parse. `TimerWindowView` models the evidently intended code, in which the alert's placement is ambiguous.
- TimerWindowView.TimerWindow.constructor: the reassignment of the meeting when another window writes storage is not modelled.
- PopOut.TimerPopOutController.PauseSpeaking: the duration the source computes and never stores is not modelled.
- The `try`/`catch` of js/views/timerView.js around its calls into the main window is reduced to the `notifyThrows` parameter of `TimerWindowView.TimerWindow.EndMeeting`. Notifications that throw elsewhere are recorded as sent.
- Timer.SpeakingTimer.UpdateTimerWithAnimationFrame: models only whether the next frame is requested, not its handle.

/** The statistics screen's controller (js/controllers/statsController.js):
    it holds a finished meeting and the statistics computed from it, and
    recomputes them when a newer copy of the meeting is handed to it. */
module StatsControl {
  import opened Meetings
  import opened Statistics

  class StatsController {
    var meeting: Meeting
    var stats: Stats

    /** `new StatsController(meeting, view)` on a meeting (the source throws
        on a null one; see `Create`): the statistics of that meeting. */
    constructor (meeting: Meeting)
      requires Complete(meeting.speakingData, meeting.participants)
      ensures this.meeting == meeting
      ensures stats == StatsOf(meeting.speakingData, meeting.participants)
    {
      this.meeting := meeting;
      new;
      stats := CalculateStats(meeting.speakingData, meeting.participants);
    }

    /** The constructor's guard: no controller for a missing meeting. */
    static method Create(meeting: Meeting?) returns (c: StatsController?)
      requires meeting != null ==> Complete(meeting.speakingData, meeting.participants)
      ensures c == null <==> meeting == null
      ensures c != null ==>
        fresh(c) && c.meeting == meeting && c.stats == StatsOf(meeting.speakingData, meeting.participants)
    {
      if meeting == null {
        return null;
      }
      c := new StatsController(meeting);
    }

    /** `refreshData()`, given what storage returned: a stored meeting
        replaces the held one and the statistics are recomputed from it;
        without one nothing changes. */
    method RefreshData(updated: Meeting?)
      requires updated != null ==> Complete(updated.speakingData, updated.participants)
      modifies this
      ensures updated == null ==> meeting == old(meeting) && stats == old(stats)
      ensures updated != null ==>
        meeting == updated && stats == StatsOf(updated.speakingData, updated.participants)
    {
      if updated != null {
        meeting := updated;
        stats := CalculateStats(meeting.speakingData, meeting.participants);
      }
    }
  }
}

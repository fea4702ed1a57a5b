/** The older statistics screen (js/views/statsView.js): the same
    `calculateStats` as the controller, and the fair-distribution lines of
    `displayTextStats`, which say for each category whether it spoke more or
    less than its fair share and by how much. */
module StatsScreen {
  import opened Common
  import opened Config
  import opened Meetings
  import opened Statistics

  /** Which side of the fair share a category is on (`OVER_CLASS` with
      `MORE_THAN_FAIR`, or `UNDER_CLASS` with `LESS_THAN_FAIR`). */
  datatype Verdict = MoreThanFair | LessThanFair

  /** The fair-distribution line of one category: the verdict and the
      formatted size of the difference. */
  datatype FairnessNote = FairnessNote(verdict: Verdict, difference: string)

  /** With `diff = actual - fair`: over the fair share exactly when `diff > 0`;
      the difference shown is the distance between the two either way, so
      exactly the fair share reads "less than fair" with the default display. */
  function Fairness(actual: real, fair: real): (n: FairnessNote)
    ensures n.verdict == MoreThanFair <==> actual > fair
    ensures actual >= fair ==> n.difference == StatsFormatTime(actual - fair)
    ensures actual <= fair ==> n.difference == StatsFormatTime(fair - actual)
    ensures actual == fair ==> n == FairnessNote(LessThanFair, DefaultDisplay)
  {
    var diff := actual - fair;
    if diff > 0.0 then FairnessNote(MoreThanFair, StatsFormatTime(diff))
    else FairnessNote(LessThanFair, StatsFormatTime(if diff < 0.0 then -diff else diff))
  }

  /** With participants, not every category can be over its fair share: the
      shares add up to the total time, which is what the categories spoke. */
  lemma NotAllOverFair(data: SpeakingData, participants: map<string, int>)
    requires Complete(data, participants)
    requires participants[Men] + participants[Women] + participants[Nonbinary] > 0
    ensures var s := StatsOf(data, participants);
      exists g :: g in TypeSet && Fairness(s.genderTime[g], s.fairDistribution[g]).verdict == LessThanFair
  {
    var s := StatsOf(data, participants);
    StatsTotals(data, participants);
    FairSharesSumToTotal(data, participants);
    if s.genderTime[Men] <= s.fairDistribution[Men] {
      assert Fairness(s.genderTime[Men], s.fairDistribution[Men]).verdict == LessThanFair;
    } else if s.genderTime[Women] <= s.fairDistribution[Women] {
      assert Fairness(s.genderTime[Women], s.fairDistribution[Women]).verdict == LessThanFair;
    } else {
      assert s.genderTime[Nonbinary] <= s.fairDistribution[Nonbinary];
      assert Fairness(s.genderTime[Nonbinary], s.fairDistribution[Nonbinary]).verdict == LessThanFair;
    }
  }

  /** Without participants every fair share is 0, so a category is over its
      share exactly when it spoke at all. */
  lemma NoParticipantsOverFair(data: SpeakingData, participants: map<string, int>, g: string)
    requires Complete(data, participants) && g in TypeSet
    requires participants[Men] + participants[Women] + participants[Nonbinary] <= 0
    ensures var s := StatsOf(data, participants);
      Fairness(s.genderTime[g], s.fairDistribution[g]).verdict == MoreThanFair <==> Sum(data[g]) > 0.0
  {
    StatsTotals(data, participants);
    FairSharesSumToTotal(data, participants);
  }

  class StatsView {
    var meeting: Meeting
    var stats: Stats

    /** Every measure of the statistics has the three categories. */
    ghost predicate Valid()
      reads this
    {
      stats.genderTime.Keys == stats.fairDistribution.Keys == TypeSet
    }

    /** `new StatsView()`, with the meeting storage returned: its statistics. */
    constructor (meeting: Meeting)
      requires Complete(meeting.speakingData, meeting.participants)
      ensures Valid()
      ensures this.meeting == meeting
      ensures stats == StatsOf(meeting.speakingData, meeting.participants)
    {
      this.meeting := meeting;
      new;
      stats := CalculateStats(meeting.speakingData, meeting.participants);
      StatsTotals(meeting.speakingData, meeting.participants);
    }

    /** The constructor's first use of the meeting: no view for a missing
        meeting (the source throws on `this.meeting.speakingData`),
        otherwise one holding that meeting's statistics. */
    static method Create(meeting: Meeting?) returns (v: StatsView?)
      requires meeting != null ==> Complete(meeting.speakingData, meeting.participants)
      ensures v == null <==> meeting == null
      ensures v != null ==>
        fresh(v) && v.Valid() && v.meeting == meeting
        && v.stats == StatsOf(meeting.speakingData, meeting.participants)
    {
      if meeting == null {
        return null;
      }
      v := new StatsView(meeting);
    }

    /** The fair-distribution lines of `displayTextStats`, one per category
        in `Types` order. */
    method FairnessLines() returns (notes: seq<FairnessNote>)
      requires Valid()
      ensures |notes| == |Types|
      ensures forall i :: 0 <= i < |Types| ==>
        notes[i] == Fairness(stats.genderTime[Types[i]], stats.fairDistribution[Types[i]])
    {
      notes := [];
      for i := 0 to |Types|
        invariant |notes| == i
        invariant forall k :: 0 <= k < i ==>
          notes[k] == Fairness(stats.genderTime[Types[k]], stats.fairDistribution[Types[k]])
      {
        var gender := Types[i];
        var actual := stats.genderTime[gender];
        var fair := stats.fairDistribution[gender];
        notes := notes + [Fairness(actual, fair)];
      }
    }
  }
}

/** What `calculateStats` computes from a finished meeting (the same code in
    js/controllers/statsController.js and js/views/statsView.js), and the
    guarded `formatTime` of both statistics screens. */
module Statistics {
  import opened Common
  import opened Config
  import opened Meetings
  import TimeFormat

  /** The statistics record, one map per measure, each keyed by the three categories. */
  datatype Stats = Stats(
    totalTime: real,
    genderTime: map<string, real>,
    statementsCount: map<string, int>,
    avgDuration: map<string, real>,
    timePerParticipant: map<string, real>,
    fairDistribution: map<string, real>)

  /** Every category has a list of samples and a participant count. */
  predicate Complete(data: SpeakingData, participants: map<string, int>)
  {
    TypeSet <= data.Keys && TypeSet <= participants.Keys
  }

  /** `sum / count` when `count > 0`, otherwise 0. */
  function Average(sum: real, count: int): real
  {
    if count > 0 then sum / count as real else 0.0
  }

  /** `total * (share / of)` when `of > 0`, otherwise 0. */
  function FairShare(total: real, share: int, of: int): real
  {
    if of > 0 then total * (share as real / of as real) else 0.0
  }

  /** Per category, the time spoken: the sum of its samples. */
  function GenderTimes(data: SpeakingData): map<string, real>
    requires TypeSet <= data.Keys
  {
    map g | g in TypeSet :: Sum(data[g])
  }

  /** Per category, the number of statements. */
  function StatementCounts(data: SpeakingData): map<string, int>
    requires TypeSet <= data.Keys
  {
    map g | g in TypeSet :: |data[g]|
  }

  /** Per category, the mean statement (0 without statements). */
  function MeanStatements(data: SpeakingData): map<string, real>
    requires TypeSet <= data.Keys
  {
    map g | g in TypeSet :: Average(Sum(data[g]), |data[g]|)
  }

  /** Per category, the time per participant (0 without participants). */
  function PerParticipant(data: SpeakingData, participants: map<string, int>): map<string, real>
    requires Complete(data, participants)
  {
    map g | g in TypeSet :: Average(Sum(data[g]), participants[g])
  }

  /** Per category, its share of `total` by head count (0 without participants). */
  function FairShares(total: real, participants: map<string, int>): map<string, real>
    requires TypeSet <= participants.Keys
  {
    var heads := CountOver(participants, Types);
    map g | g in TypeSet :: FairShare(total, participants[g], heads)
  }

  /** The statistics of a meeting: per category the number of statements, the
      time spoken, the mean statement and the time per participant, the total
      time, and each category's fair share of the total by head count. */
  function StatsOf(data: SpeakingData, participants: map<string, int>): Stats
    requires Complete(data, participants)
  {
    var total := AllSpeakingTime(data);
    Stats(total, GenderTimes(data), StatementCounts(data), MeanStatements(data),
      PerParticipant(data, participants), FairShares(total, participants))
  }

  /** Every measure has exactly the three categories as keys; the total is the
      sum of the three category times, and each category time is the sum of
      its samples. */
  lemma StatsTotals(data: SpeakingData, participants: map<string, int>)
    requires Complete(data, participants)
    ensures var s := StatsOf(data, participants);
      s.genderTime.Keys == s.statementsCount.Keys == s.avgDuration.Keys
        == s.timePerParticipant.Keys == s.fairDistribution.Keys == TypeSet
      && s.totalTime == s.genderTime[Men] + s.genderTime[Women] + s.genderTime[Nonbinary]
      && (forall g :: g in TypeSet ==> s.genderTime[g] == Sum(data[g]) && s.statementsCount[g] == |data[g]|)
  {
    AllSpeakingTimeUnfold(data);
  }

  /** Averages never divide by zero: a category without statements gets a
      mean statement of 0 and one without participants a time per participant
      of 0; otherwise they are the category's time divided by the count. */
  lemma AveragesGuarded(data: SpeakingData, participants: map<string, int>, g: string)
    requires Complete(data, participants) && g in TypeSet
    ensures var s := StatsOf(data, participants);
      (|data[g]| == 0 ==> s.avgDuration[g] == 0.0)
      && (|data[g]| > 0 ==> s.avgDuration[g] == s.genderTime[g] / |data[g]| as real)
      && (participants[g] <= 0 ==> s.timePerParticipant[g] == 0.0)
      && (participants[g] > 0 ==> s.timePerParticipant[g] == s.genderTime[g] / participants[g] as real)
  {
  }

  /** A guarded mean times its positive count gives back the sum. */
  lemma AverageTimesCount(sum: real, count: int)
    ensures count > 0 ==> Average(sum, count) * count as real == sum
    ensures count <= 0 ==> Average(sum, count) == 0.0
  {
    if count > 0 {
      DivTimes(sum, count as real);
    }
  }

  lemma DivTimes(x: real, y: real)
    requires y != 0.0
    ensures (x / y) * y == x
  {
  }

  /** The fair shares of three head counts with a positive sum add up to the
      total, and each is the total times its count over the sum. */
  lemma FairSharesAddUp(t: real, a: int, b: int, c: int, h: int)
    requires h == a + b + c && h > 0
    ensures FairShare(t, a, h) + FairShare(t, b, h) + FairShare(t, c, h) == t
  {
    SharesAddUp(t, a as real, b as real, c as real, h as real);
  }

  /** A positive head count times its fair share is the total times the count. */
  lemma FairShareTimes(t: real, a: int, h: int)
    requires h > 0
    ensures FairShare(t, a, h) * h as real == t * a as real
  {
    var x := a as real / h as real;
    DivTimes(a as real, h as real);
    assert (t * x) * h as real == t * (x * h as real);
  }

  /** Shares `t * (a / h)` of `t` in proportion to `a`, `b`, `c` with `a + b + c == h`
      add up to `t`, and each is `t * a / h`. */
  lemma SharesAddUp(t: real, a: real, b: real, c: real, h: real)
    requires h > 0.0 && a + b + c == h
    ensures t * (a / h) + t * (b / h) + t * (c / h) == t
  {
    assert a / h + b / h + c / h == (a + b + c) / h;
    assert (a + b + c) / h == 1.0;
    assert t * (a / h) + t * (b / h) + t * (c / h) == t * (a / h + b / h + c / h);
  }

  /** Each category's entry of the fair shares, with the head count as the
      three counts. */
  lemma FairSharesEntries(t: real, participants: map<string, int>)
    requires TypeSet <= participants.Keys
    ensures var heads := participants[Men] + participants[Women] + participants[Nonbinary];
      forall g :: g in TypeSet ==> FairShares(t, participants)[g] == FairShare(t, participants[g], heads)
  {
    CountOverTypes(participants);
  }

  /** With participants, the fair shares of `t` add up to `t`; without, every
      share is 0. */
  lemma FairSharesSum(t: real, participants: map<string, int>)
    requires TypeSet <= participants.Keys
    ensures var heads := participants[Men] + participants[Women] + participants[Nonbinary];
      var f := FairShares(t, participants);
      (heads > 0 ==> f[Men] + f[Women] + f[Nonbinary] == t)
      && (heads <= 0 ==> forall g :: g in TypeSet ==> f[g] == 0.0)
  {
    var heads := participants[Men] + participants[Women] + participants[Nonbinary];
    FairSharesEntries(t, participants);
    if heads > 0 {
      FairSharesAddUp(t, participants[Men], participants[Women], participants[Nonbinary], heads);
    }
  }

  /** With participants, the fair shares add up to the total time; without,
      every fair share is 0. */
  lemma FairSharesSumToTotal(data: SpeakingData, participants: map<string, int>)
    requires Complete(data, participants)
    ensures var s := StatsOf(data, participants);
      var heads := participants[Men] + participants[Women] + participants[Nonbinary];
      (heads > 0 ==>
        s.fairDistribution[Men] + s.fairDistribution[Women] + s.fairDistribution[Nonbinary] == s.totalTime)
      && (heads <= 0 ==> forall g :: g in TypeSet ==> s.fairDistribution[g] == 0.0)
  {
    FairSharesSum(AllSpeakingTime(data), participants);
  }

  /** One category's entry of the fair distribution: its fair share of the
      total time, with the three counts as the head count. With
      `FairShareTimes`, a positive head count times the entry is the total
      time times the category's count. */
  lemma FairDistributionEntry(data: SpeakingData, participants: map<string, int>, g: string)
    requires Complete(data, participants) && g in TypeSet
    ensures StatsOf(data, participants).fairDistribution[g]
      == FairShare(StatsOf(data, participants).totalTime, participants[g],
           participants[Men] + participants[Women] + participants[Nonbinary])
  {
    CountOverTypes(participants);
  }

  /** `calculateStats()`: the four passes over `Types` of the source, one
      method each, on the `stats` record they fill in. The meeting is only read. */
  method CalculateStats(data: SpeakingData, participants: map<string, int>) returns (stats: Stats)
    requires Complete(data, participants)
    ensures stats == StatsOf(data, participants)
  {
    stats := InitialStats();
    stats := CountStatements(data, stats);
    ghost var counted := stats;
    stats := AverageStatements(participants, stats);
    ghost var averaged := stats;
    var totalParticipants := TotalParticipants(participants);
    if totalParticipants > 0 {
      stats := DistributeFairly(participants, totalParticipants, stats);
    }
    Assemble(data, participants, counted, averaged, stats);
  }

  /** The zero record: total 0, and 0 for every measure of every category. */
  function Zeros(): (z: Stats)
    ensures z.totalTime == 0.0
    ensures forall g :: g in TypeSet ==>
      g in z.genderTime && z.genderTime[g] == 0.0 && g in z.statementsCount && z.statementsCount[g] == 0
      && g in z.avgDuration && z.avgDuration[g] == 0.0 && g in z.timePerParticipant
      && z.timePerParticipant[g] == 0.0 && g in z.fairDistribution && z.fairDistribution[g] == 0.0
  {
    Stats(0.0, map g | g in TypeSet :: 0.0, map g | g in TypeSet :: 0, map g | g in TypeSet :: 0.0,
      map g | g in TypeSet :: 0.0, map g | g in TypeSet :: 0.0)
  }

  /** The first pass: a zero under every category in every measure. */
  method InitialStats() returns (stats: Stats)
    ensures stats == Zeros()
  {
    var genderTime: map<string, real> := map[];
    var statementsCount: map<string, int> := map[];
    var avgDuration: map<string, real> := map[];
    var timePerParticipant: map<string, real> := map[];
    var fairDistribution: map<string, real> := map[];
    for i := 0 to |Types|
      invariant genderTime.Keys == statementsCount.Keys == avgDuration.Keys == timePerParticipant.Keys
        == fairDistribution.Keys == set j | 0 <= j < i :: Types[j]
      invariant forall g :: g in genderTime ==>
        genderTime[g] == 0.0 && statementsCount[g] == 0 && avgDuration[g] == 0.0
        && timePerParticipant[g] == 0.0 && fairDistribution[g] == 0.0
    {
      var g := Types[i];
      genderTime := genderTime[g := 0.0];
      statementsCount := statementsCount[g := 0];
      avgDuration := avgDuration[g := 0.0];
      timePerParticipant := timePerParticipant[g := 0.0];
      fairDistribution := fairDistribution[g := 0.0];
    }
    assert (set j | 0 <= j < |Types| :: Types[j]) == TypeSet by {
      assert Types[0] == Men && Types[1] == Women && Types[2] == Nonbinary;
    }
    stats := Stats(0.0, genderTime, statementsCount, avgDuration, timePerParticipant, fairDistribution);
  }

  /** The second pass: each category's statement count and time, with the
      time added to the total; the other measures are left alone. */
  method CountStatements(data: SpeakingData, stats: Stats) returns (r: Stats)
    requires TypeSet <= data.Keys
    requires stats.genderTime.Keys == stats.statementsCount.Keys == TypeSet
    ensures r == stats.(
      totalTime := stats.totalTime + AllSpeakingTime(data),
      genderTime := GenderTimes(data),
      statementsCount := StatementCounts(data))
  {
    var totalTime := stats.totalTime;
    var genderTime := stats.genderTime;
    var statementsCount := stats.statementsCount;
    for i := 0 to |Types|
      invariant genderTime.Keys == statementsCount.Keys == TypeSet
      invariant forall j :: 0 <= j < i ==>
        genderTime[Types[j]] == Sum(data[Types[j]]) && statementsCount[Types[j]] == |data[Types[j]]|
      invariant totalTime == stats.totalTime + TimeOver(data, Types[..i])
    {
      var g := Types[i];
      var times := data[g];
      statementsCount := statementsCount[g := |times|];
      genderTime := genderTime[g := Sum(times)];
      assert Types[..i + 1][..i] == Types[..i];
      totalTime := totalTime + genderTime[g];
    }
    assert Types[..|Types|] == Types;
    SameOnTypes(genderTime, GenderTimes(data));
    SameOnTypes(statementsCount, StatementCounts(data));
    r := stats.(totalTime := totalTime, genderTime := genderTime, statementsCount := statementsCount);
  }

  /** The third pass: a category with statements gets its mean statement, one
      with participants its time per participant; where the count is not
      positive the measure keeps the value it had. */
  method AverageStatements(participants: map<string, int>, stats: Stats) returns (r: Stats)
    requires TypeSet <= participants.Keys
    requires stats.genderTime.Keys == stats.statementsCount.Keys == stats.avgDuration.Keys
      == stats.timePerParticipant.Keys == TypeSet
    ensures r == stats.(
      avgDuration := map g | g in TypeSet ::
        if stats.statementsCount[g] > 0 then Average(stats.genderTime[g], stats.statementsCount[g])
        else stats.avgDuration[g],
      timePerParticipant := map g | g in TypeSet ::
        if participants[g] > 0 then Average(stats.genderTime[g], participants[g])
        else stats.timePerParticipant[g])
  {
    var avgDuration := stats.avgDuration;
    var timePerParticipant := stats.timePerParticipant;
    for i := 0 to |Types|
      invariant avgDuration.Keys == timePerParticipant.Keys == TypeSet
      invariant forall j :: 0 <= j < i ==>
        avgDuration[Types[j]] == if stats.statementsCount[Types[j]] > 0
          then Average(stats.genderTime[Types[j]], stats.statementsCount[Types[j]])
          else stats.avgDuration[Types[j]]
      invariant forall j :: 0 <= j < i ==>
        timePerParticipant[Types[j]] == if participants[Types[j]] > 0
          then Average(stats.genderTime[Types[j]], participants[Types[j]])
          else stats.timePerParticipant[Types[j]]
      invariant forall j :: i <= j < |Types| ==>
        avgDuration[Types[j]] == stats.avgDuration[Types[j]]
        && timePerParticipant[Types[j]] == stats.timePerParticipant[Types[j]]
    {
      var g := Types[i];
      if stats.statementsCount[g] > 0 {
        avgDuration := avgDuration[g := Average(stats.genderTime[g], stats.statementsCount[g])];
      }
      var participantCount := participants[g];
      if participantCount > 0 {
        timePerParticipant := timePerParticipant[g := Average(stats.genderTime[g], participantCount)];
      }
    }
    SameOnTypes(avgDuration, map g | g in TypeSet ::
      if stats.statementsCount[g] > 0 then Average(stats.genderTime[g], stats.statementsCount[g])
      else stats.avgDuration[g]);
    SameOnTypes(timePerParticipant, map g | g in TypeSet ::
      if participants[g] > 0 then Average(stats.genderTime[g], participants[g])
      else stats.timePerParticipant[g]);
    r := stats.(avgDuration := avgDuration, timePerParticipant := timePerParticipant);
  }

  /** `types.reduce((sum, g) => sum + participants[g], 0)`. */
  method TotalParticipants(participants: map<string, int>) returns (total: int)
    requires TypeSet <= participants.Keys
    ensures total == participants[Men] + participants[Women] + participants[Nonbinary]
  {
    total := 0;
    for i := 0 to |Types|
      invariant total == CountOver(participants, Types[..i])
    {
      assert Types[..i + 1][..i] == Types[..i];
      total := total + participants[Types[i]];
    }
    assert Types[..|Types|] == Types;
    CountOverTypes(participants);
  }

  /** The fourth pass, run when there are participants: each category's share
      of the total time in proportion to its head count. */
  method DistributeFairly(participants: map<string, int>, totalParticipants: int, stats: Stats) returns (r: Stats)
    requires TypeSet <= participants.Keys && totalParticipants > 0
    requires stats.fairDistribution.Keys == TypeSet
    ensures r == stats.(fairDistribution := map g | g in TypeSet ::
      FairShare(stats.totalTime, participants[g], totalParticipants))
  {
    var fairDistribution := stats.fairDistribution;
    for i := 0 to |Types|
      invariant fairDistribution.Keys == TypeSet
      invariant forall j :: 0 <= j < i ==>
        fairDistribution[Types[j]] == FairShare(stats.totalTime, participants[Types[j]], totalParticipants)
    {
      var g := Types[i];
      var fairPercentage := participants[g] as real / totalParticipants as real;
      fairDistribution := fairDistribution[g := stats.totalTime * fairPercentage];
    }
    SameOnTypes(fairDistribution, map g | g in TypeSet ::
      FairShare(stats.totalTime, participants[g], totalParticipants));
    r := stats.(fairDistribution := fairDistribution);
  }

  /** The four passes compose to `StatsOf`: the zeros of the first pass are
      what a non-positive count leaves in place. */
  lemma Assemble(data: SpeakingData, participants: map<string, int>, counted: Stats, averaged: Stats, stats: Stats)
    requires Complete(data, participants)
    requires counted == Zeros().(
      totalTime := AllSpeakingTime(data),
      genderTime := GenderTimes(data),
      statementsCount := StatementCounts(data))
    requires averaged == counted.(
      avgDuration := map g | g in TypeSet ::
        if counted.statementsCount[g] > 0 then Average(counted.genderTime[g], counted.statementsCount[g])
        else counted.avgDuration[g],
      timePerParticipant := map g | g in TypeSet ::
        if participants[g] > 0 then Average(counted.genderTime[g], participants[g])
        else counted.timePerParticipant[g])
    requires var heads := participants[Men] + participants[Women] + participants[Nonbinary];
      stats == if heads > 0
        then averaged.(fairDistribution := map g | g in TypeSet :: FairShare(averaged.totalTime, participants[g], heads))
        else averaged
    ensures stats == StatsOf(data, participants)
  {
    AveragesAssembled(data, participants, counted, averaged);
    FairAssembled(data, participants, averaged.totalTime, averaged.fairDistribution, stats.fairDistribution);
  }

  /** The third pass over the second: the guarded averages of `StatsOf`. */
  lemma AveragesAssembled(data: SpeakingData, participants: map<string, int>, counted: Stats, averaged: Stats)
    requires Complete(data, participants)
    requires counted == Zeros().(
      totalTime := AllSpeakingTime(data),
      genderTime := GenderTimes(data),
      statementsCount := StatementCounts(data))
    requires averaged == counted.(
      avgDuration := map g | g in TypeSet ::
        if counted.statementsCount[g] > 0 then Average(counted.genderTime[g], counted.statementsCount[g])
        else counted.avgDuration[g],
      timePerParticipant := map g | g in TypeSet ::
        if participants[g] > 0 then Average(counted.genderTime[g], participants[g])
        else counted.timePerParticipant[g])
    ensures averaged.avgDuration == StatsOf(data, participants).avgDuration
    ensures averaged.timePerParticipant == StatsOf(data, participants).timePerParticipant
  {
    var s := StatsOf(data, participants);
    assert averaged.avgDuration == s.avgDuration by {
      SameOnTypes(averaged.avgDuration, s.avgDuration);
    }
    assert averaged.timePerParticipant == s.timePerParticipant by {
      SameOnTypes(averaged.timePerParticipant, s.timePerParticipant);
    }
  }

  /** The fourth pass, or its absence, over the zeros of the first: the fair
      shares of `StatsOf`. */
  lemma FairAssembled(data: SpeakingData, participants: map<string, int>, total: real,
                      zeros: map<string, real>, fair: map<string, real>)
    requires Complete(data, participants) && total == AllSpeakingTime(data)
    requires zeros == Zeros().fairDistribution
    requires var heads := participants[Men] + participants[Women] + participants[Nonbinary];
      fair == if heads > 0 then map g | g in TypeSet :: FairShare(total, participants[g], heads) else zeros
    ensures fair == StatsOf(data, participants).fairDistribution
  {
    var s := StatsOf(data, participants);
    CountOverTypes(participants);
    SameOnTypes(fair, s.fairDistribution);
  }

  /** Two maps over the three categories that agree on each of them are equal. */
  lemma SameOnTypes<V>(m: map<string, V>, n: map<string, V>)
    requires m.Keys == n.Keys == TypeSet
    requires forall j :: 0 <= j < |Types| ==> m[Types[j]] == n[Types[j]]
    ensures m == n
  {
    assert forall g :: g in TypeSet ==> g == Types[0] || g == Types[1] || g == Types[2];
  }

  /** `formatTime` of the statistics screens: zero (falsy) shows the default
      display, anything else `mm:ss`. The guard changes nothing: the default
      display is what the plain format shows for zero. */
  function StatsFormatTime(seconds: real): (r: string)
    ensures r == TimeFormat.FormatTime(seconds)
  {
    if seconds == 0.0 then TimeFormat.FormatZero(); DefaultDisplay else TimeFormat.FormatTime(seconds)
  }

  /** The statistics' times read back as whole minutes and the seconds left
      over, zero included. */
  lemma StatsFormatAgrees(seconds: real)
    requires seconds >= 0.0
    ensures TimeFormat.DecodeClock(StatsFormatTime(seconds)) == Some((seconds.Floor / 60, seconds.Floor % 60))
  {
    TimeFormat.DecodeFormatTime(seconds);
  }

  /** Two men and three women sharing 50 seconds: the fair shares are 20 and
      30 seconds and nonbinary's is 0. */
  lemma FairShareExample()
    ensures var f := FairShares(50.0, map[Men := 2, Women := 3, Nonbinary := 0]);
      f[Men] == 20.0 && f[Women] == 30.0 && f[Nonbinary] == 0.0
  {
    var p := map[Men := 2, Women := 3, Nonbinary := 0];
    FairSharesEntries(50.0, p);
    assert p[Men] + p[Women] + p[Nonbinary] == 5;
  }
}

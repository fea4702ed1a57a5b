/** The meeting record (js/models/meeting.js): participant counts and the
    per-category lists of finished speaking durations. */
module Meetings {
  import opened Common
  import opened Config

  /** Per-category duration samples, `meeting.speakingData`. */
  type SpeakingData = map<string, seq<real>>

  /** `counts.reduce((sum, c) => sum + c, 0)` over the counts of `keys`, in order. */
  function CountOver(p: map<string, int>, keys: seq<string>): int
    requires forall k :: k in keys ==> k in p
  {
    if keys == [] then 0 else CountOver(p, keys[..|keys| - 1]) + p[keys[|keys| - 1]]
  }

  /** `getTotalSpeakingTime(g)`: 0 when `g` has no list, otherwise the sum of its samples. */
  function SpeakingTime(data: SpeakingData, g: string): (t: real)
    ensures g !in data ==> t == 0.0
    ensures g in data ==> t == Sum(data[g])
  {
    if g !in data then 0.0 else Sum(data[g])
  }

  /** Running total of `SpeakingTime` over `keys`, in order (the `+=` of `getAllSpeakingTime`). */
  function TimeOver(data: SpeakingData, keys: seq<string>): real
  {
    if keys == [] then 0.0 else TimeOver(data, keys[..|keys| - 1]) + SpeakingTime(data, keys[|keys| - 1])
  }

  /** What `getAllSpeakingTime` computes: the speaking time of every category in `Types`. */
  function AllSpeakingTime(data: SpeakingData): real
  {
    TimeOver(data, Types)
  }

  /** The total over the three categories is the sum of their three totals. */
  lemma AllSpeakingTimeUnfold(data: SpeakingData)
    ensures AllSpeakingTime(data)
         == SpeakingTime(data, Men) + SpeakingTime(data, Women) + SpeakingTime(data, Nonbinary)
  {
    assert Types[..|Types| - 1] == [Men, Women];
    assert [Men, Women][..1] == [Men];
    assert [Men][..0] == [];
    assert TimeOver(data, [Men]) == SpeakingTime(data, Men);
    assert TimeOver(data, [Men, Women]) == SpeakingTime(data, Men) + SpeakingTime(data, Women);
  }

  /** The sum of the counts over `Types` is the sum of the three counts. */
  lemma CountOverTypes(p: map<string, int>)
    requires TypeSet <= p.Keys
    ensures CountOver(p, Types) == p[Men] + p[Women] + p[Nonbinary]
  {
    assert Types[..|Types| - 1] == [Men, Women];
    assert [Men, Women][..1] == [Men];
    assert [Men][..0] == [];
    assert CountOver(p, [Men]) == p[Men];
    assert CountOver(p, [Men, Women]) == p[Men] + p[Women];
  }

  /** Appending a duration `d` to category `g`'s list raises `g`'s speaking time
      by `d`, leaves every other category's time unchanged, and raises the total
      over `Types` by `d` exactly when `g` is one of `Types`. */
  lemma AppendRaisesTotals(data: SpeakingData, g: string, d: real)
    requires g in data
    ensures SpeakingTime(data[g := data[g] + [d]], g) == SpeakingTime(data, g) + d
    ensures forall h :: h != g ==> SpeakingTime(data[g := data[g] + [d]], h) == SpeakingTime(data, h)
    ensures AllSpeakingTime(data[g := data[g] + [d]])
         == AllSpeakingTime(data) + (if g in Types then d else 0.0)
  {
    var data' := data[g := data[g] + [d]];
    SumSnoc(data[g], d);
    AllSpeakingTimeUnfold(data);
    AllSpeakingTimeUnfold(data');
  }

  class Meeting {
    var name: string
    var date: string
    var participants: map<string, int>
    var speakingData: SpeakingData
    var active: bool
    var currentSpeaker: Option<string>
    var startTime: Option<Millis>

    /** Counts exist for exactly the three categories, and each of them has a
        list of samples. No operation of the model removes a list. */
    ghost predicate Valid()
      reads this
    {
      participants.Keys == TypeSet && TypeSet <= speakingData.Keys
    }

    /** `new Meeting(name, date)`: zero counts, empty lists, inactive, nobody speaking. */
    constructor (name: string, date: string)
      ensures Valid()
      ensures this.name == name && this.date == date
      ensures participants == map[Men := 0, Women := 0, Nonbinary := 0]
      ensures speakingData == map[Men := [], Women := [], Nonbinary := []]
      ensures !active && currentSpeaker == None && startTime == None
    {
      this.name := name;
      this.date := date;
      participants := map[Types[0] := 0, Types[1] := 0, Types[2] := 0];
      speakingData := map[Types[0] := [], Types[1] := [], Types[2] := []];
      active := false;
      currentSpeaker := None;
      startTime := None;
    }

    /** `setParticipants(a, b, c)`: the counts of `Types[0]`, `Types[1]`,
        `Types[2]` become `a`, `b`, `c`; nothing else changes. */
    method SetParticipants(men: int, women: int, nonbinary: int)
      requires Valid()
      modifies this`participants
      ensures Valid()
      ensures participants == map[Men := men, Women := women, Nonbinary := nonbinary]
      ensures GetTotalParticipants() == men + women + nonbinary
    {
      participants := participants[Types[0] := men];
      participants := participants[Types[1] := women];
      participants := participants[Types[2] := nonbinary];
    }

    /** `getTotalParticipants`: the sum of the counts (whose keys are exactly `Types`). */
    function GetTotalParticipants(): (total: int)
      reads this
      requires Valid()
      ensures total == participants[Men] + participants[Women] + participants[Nonbinary]
    {
      CountOverTypes(participants);
      CountOver(participants, Types)
    }

    /** `getTotalSpeakingTime(g)` on this meeting. */
    function GetTotalSpeakingTime(g: string): (t: real)
      reads this
      ensures g !in speakingData ==> t == 0.0
      ensures g in speakingData ==> t == Sum(speakingData[g])
    {
      SpeakingTime(speakingData, g)
    }

    /** `getAllSpeakingTime`: accumulates `getTotalSpeakingTime` over `Types`. */
    method GetAllSpeakingTime() returns (total: real)
      ensures total == AllSpeakingTime(speakingData)
      ensures total == GetTotalSpeakingTime(Men) + GetTotalSpeakingTime(Women) + GetTotalSpeakingTime(Nonbinary)
    {
      total := 0.0;
      for i := 0 to |Types|
        invariant total == TimeOver(speakingData, Types[..i])
      {
        assert Types[..i + 1][..i] == Types[..i];
        total := total + GetTotalSpeakingTime(Types[i]);
      }
      assert Types[..|Types|] == Types;
      AllSpeakingTimeUnfold(speakingData);
    }
  }
}

/** `validateForm` and `saveMeetingData` of js/views/setupView.js: the same
    chain of checks as the controller with the minimum written as 2, and a
    save under the keys `men`, `women` and `nonBinary` that nothing catches. */
module SetupScreen {
  import opened Common
  import opened Config
  import opened SetupForms
  import SetupControl

  /** The literal minimum headcount of this validator. */
  const MinHeadcount: int := 2

  /** The key this view stores the nonbinary count under. */
  const NonBinaryKey: string := "nonBinary"

  /** `menCount + womenCount + nonBinaryCount`, each read with `?.value || 0`. */
  function Headcount(form: SetupForm): int
  {
    CountValue(form.menCount) + CountValue(form.womenCount) + CountValue(form.nonBinaryCount)
  }

  /** Every count the save reads without `?.` is there, so `.value` does not throw. */
  predicate CountElements(form: SetupForm)
  {
    !form.menCount.NoElement? && !form.womenCount.NoElement? && !form.nonBinaryCount.NoElement?
  }

  /** The object `new SetupView()` builds: its constructor assigns
      `nonBinaryCount` but no `nonbinaryCount`, and the class has no
      `showAlert` method. */
  predicate IsSetupView(form: SetupForm)
  {
    form.nonbinaryCount == NoElement && !form.showAlert
  }

  /** `saveMeetingData()`: each count under its own input's name; a missing
      count element or a failing storage write throws out of the validator. */
  function SaveMeetingData(form: SetupForm, storageThrows: bool): (v: Validation)
    requires form.name.Some? && form.date.Some?
    ensures v.Saved? <==> CountElements(form) && !storageThrows
    ensures !v.Saved? ==> v == Thrown
    ensures v.Saved? ==> v.data.name == form.name.value && v.data.date == form.date.value
  {
    if !CountElements(form) || storageThrows then Thrown
    else Saved(SetupData(form.name.value, form.date.value,
      map["men" := CountValue(form.menCount), "women" := CountValue(form.womenCount),
          NonBinaryKey := CountValue(form.nonBinaryCount)]))
  }

  /** `validateForm()`: name, then date, then at least two participants;
      once those pass it saves and returns true, with no failure path of its
      own. Its alerts go to the global `alert`, which is always there. */
  function ValidateForm(form: SetupForm, storageThrows: bool): (v: Validation)
    ensures v == Rejected(NameRequired) <==> !NameGiven(form)
    ensures v == Rejected(DateRequired) <==> NameGiven(form) && !DateGiven(form)
    ensures v == Rejected(MinParticipants) <==>
      NameGiven(form) && DateGiven(form) && Headcount(form) < MinHeadcount
    ensures v.Saved? <==>
      NameGiven(form) && DateGiven(form) && Headcount(form) >= MinHeadcount
      && CountElements(form) && !storageThrows
    ensures !v.SaveFailed?
  {
    if !NameGiven(form) then Rejected(NameRequired)
    else if !DateGiven(form) then Rejected(DateRequired)
    else if Headcount(form) < MinHeadcount then Rejected(MinParticipants)
    else SaveMeetingData(form, storageThrows)
  }

  /** The view's record has a `nonBinary` key and no `nonbinary` one, so
      `getCurrentMeeting()` of js/utils/storage.js, which reads
      `participants[types[i]] || 0`, loads the nonbinary count as 0. */
  lemma SavedKeys(form: SetupForm, storageThrows: bool)
    requires ValidateForm(form, storageThrows).Saved?
    ensures var p := ValidateForm(form, storageThrows).data.participants;
      p.Keys == {Men, Women, NonBinaryKey} && Nonbinary !in p
      && p[Men] == CountValue(form.menCount) && p[Women] == CountValue(form.womenCount)
      && p[NonBinaryKey] == CountValue(form.nonBinaryCount)
  {
  }

  /** Handed a `SetupView`, as its documentation says, the controller leaves
      the nonbinary input out of its headcount, and every run of its
      `validateForm()` throws: a rejection calls the missing `showAlert`, and
      a save reads `.value` of the missing `nonbinaryCount`, whose caught
      exception calls `showAlert` again. It never saves. */
  lemma ControllerOnSetupView(form: SetupForm, minParticipants: int, storageThrows: bool)
    requires IsSetupView(form)
    ensures SetupControl.Headcount(form)
         == CountValue(form.menCount) + CountValue(form.womenCount)
    ensures SetupControl.ValidateForm(form, minParticipants, storageThrows) == Thrown
  {
  }

  /** A form the view saves while the controller, reading no
      `nonbinaryCount`, counts one participant short: one man and one
      nonbinary participant. Even with `showAlert` present, the controller
      rejects it for too few participants. */
  lemma NonbinaryInputIgnored()
    ensures var form := SetupForm(Some("A"), Some("2024-05-01"), Number(1), Number(0),
                                  Number(1), NoElement, true);
      ValidateForm(form, false).Saved?
      && SetupControl.ValidateForm(form, MinHeadcount, false) == Rejected(MinParticipants)
  {
    var form := SetupForm(Some("A"), Some("2024-05-01"), Number(1), Number(0),
                          Number(1), NoElement, true);
    var name: string := "A";
    assert !IsJsWhitespace(name[0]);
    assert TrimStart(name) == name;
    assert NameGiven(form);
  }

  /** The controller reads the same nonbinary element as the view and can
      show alerts: the view it would be given if its `nonbinaryCount` were
      this view's `nonBinaryCount` and it had a `showAlert` method. */
  predicate SharedInputs(form: SetupForm)
  {
    form.nonbinaryCount == form.nonBinaryCount && form.showAlert
  }

  /** On a view whose inputs both validators share, they end the same way. */
  lemma OutcomesAgree(form: SetupForm, storageThrows: bool)
    requires SharedInputs(form)
    ensures var c := SetupControl.ValidateForm(form, MinHeadcount, storageThrows);
      var v := ValidateForm(form, storageThrows);
      (c.Rejected? <==> v.Rejected?) && (c.Rejected? ==> c == v)
      && (c.Saved? <==> v.Saved?)
      && (c.SaveFailed? <==> v.Thrown?)
  {
    assert SetupControl.Headcount(form) == Headcount(form);
    if NameGiven(form) && DateGiven(form) && Headcount(form) >= MinHeadcount {
      assert SetupControl.ValidateForm(form, MinHeadcount, storageThrows)
        == SetupControl.SaveMeetingData(form, storageThrows);
    }
  }

  /** Where both save, they store the same name, date and counts. */
  lemma SavedDataAgree(form: SetupForm, storageThrows: bool)
    requires SharedInputs(form)
    requires SetupControl.ValidateForm(form, MinHeadcount, storageThrows).Saved?
    requires ValidateForm(form, storageThrows).Saved?
    ensures var c := SetupControl.ValidateForm(form, MinHeadcount, storageThrows);
      var v := ValidateForm(form, storageThrows);
      c.data.name == v.data.name && c.data.date == v.data.date
      && c.data.participants[Men] == v.data.participants[Women]
      && c.data.participants[Women] == v.data.participants[NonBinaryKey]
      && c.data.participants[Nonbinary] == v.data.participants[Men]
  {
    assert Men != Women && Men != Nonbinary && Women != Nonbinary;
    assert Men != NonBinaryKey && Women != NonBinaryKey;
    SetupControl.SavedCounts(form, MinHeadcount, storageThrows);
    SavedKeys(form, storageThrows);
  }

  /** With the controller's minimum set to 2 and both validators reading the
      same inputs, they reject the same forms with the same alert and save
      the same forms; they differ only in how a failing save ends and in the
      keys the counts are stored under. */
  lemma ValidatorsAgree(form: SetupForm, storageThrows: bool)
    requires SharedInputs(form)
    ensures var c := SetupControl.ValidateForm(form, MinHeadcount, storageThrows);
      var v := ValidateForm(form, storageThrows);
      (c.Rejected? <==> v.Rejected?) && (c.Rejected? ==> c == v)
      && (c.Saved? <==> v.Saved?)
      && (c.SaveFailed? <==> v.Thrown?)
      && (c.Saved? ==>
            c.data.name == v.data.name && c.data.date == v.data.date
            && c.data.participants[Men] == v.data.participants[Women]
            && c.data.participants[Women] == v.data.participants[NonBinaryKey]
            && c.data.participants[Nonbinary] == v.data.participants[Men])
  {
    OutcomesAgree(form, storageThrows);
    if SetupControl.ValidateForm(form, MinHeadcount, storageThrows).Saved? {
      SavedDataAgree(form, storageThrows);
    }
  }
}

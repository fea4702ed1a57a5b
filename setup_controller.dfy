/** `validateForm` and `saveMeetingData` of js/controllers/setupController.js:
    an ordered chain of checks, then a save whose failure is caught. */
module SetupControl {
  import opened Common
  import opened Config
  import opened Messages
  import opened SetupForms
  import MeetingControl

  /** `menCount + womenCount + nonbinaryCount`, each read with `?.value || 0`
      from the controller's view. */
  function Headcount(form: SetupForm): int
  {
    CountValue(form.menCount) + CountValue(form.womenCount) + CountValue(form.nonbinaryCount)
  }

  /** Every count the save reads without `?.` is there, so `.value` does not throw. */
  predicate CountElements(form: SetupForm)
  {
    !form.womenCount.NoElement? && !form.nonbinaryCount.NoElement? && !form.menCount.NoElement?
  }

  /** `this.view.showAlert(alert)`: the alert is shown, or, when the view has
      no such method, the call throws and the exception escapes. */
  function Alerted(form: SetupForm, alert: Alert): (v: Validation)
    ensures v.Rejected? <==> form.showAlert
    ensures v.Rejected? ==> v.alert == alert
    ensures !v.Rejected? ==> v == Thrown
  {
    if form.showAlert then Rejected(alert) else Thrown
  }

  /** `saveMeetingData()` once the checks passed: the counts go under
      `types[0]`, `types[1]`, `types[2]` from the women, nonbinary and men
      inputs, in that order. A missing count element throws on `.value` and a
      storage write may throw; both are caught and reported through
      `showAlert`, which itself throws on a view without it. */
  function SaveMeetingData(form: SetupForm, storageThrows: bool): (v: Validation)
    requires form.name.Some? && form.date.Some?
    ensures v.Saved? <==> CountElements(form) && !storageThrows
    ensures !v.Saved? ==> v == (if form.showAlert then SaveFailed else Thrown)
    ensures v.Saved? ==> v.data.name == form.name.value && v.data.date == form.date.value
  {
    if !CountElements(form) || storageThrows then
      (if form.showAlert then SaveFailed else Thrown)
    else Saved(SetupData(form.name.value, form.date.value,
      map[Types[0] := CountValue(form.womenCount), Types[1] := CountValue(form.nonbinaryCount),
          Types[2] := CountValue(form.menCount)]))
  }

  /** `validateForm()` with `MIN_PARTICIPANTS` as `minParticipants`: the name
      first, then the date, then the headcount, and only then the save. */
  function ValidateForm(form: SetupForm, minParticipants: int, storageThrows: bool): (v: Validation)
    ensures v == Rejected(NameRequired) <==> !NameGiven(form) && form.showAlert
    ensures v == Rejected(DateRequired) <==> NameGiven(form) && !DateGiven(form) && form.showAlert
    ensures v == Rejected(MinParticipants) <==>
      NameGiven(form) && DateGiven(form) && Headcount(form) < minParticipants && form.showAlert
    ensures v.Saved? <==>
      NameGiven(form) && DateGiven(form) && Headcount(form) >= minParticipants
      && CountElements(form) && !storageThrows
    ensures v.Rejected? ==> v.alert != SaveToLocalFailed
    ensures v.Thrown? <==> !form.showAlert && !v.Saved?
  {
    if !NameGiven(form) then Alerted(form, NameRequired)
    else if !DateGiven(form) then Alerted(form, DateRequired)
    else if Headcount(form) < minParticipants then Alerted(form, MinParticipants)
    else SaveMeetingData(form, storageThrows)
  }

  /** What `validateForm()` returns. */
  function Returns(v: Validation): (ok: bool)
    ensures ok <==> v.Saved?
  {
    v.Saved?
  }

  /** The saved counts are rotated against the category names (the women
      count under `types[0]`, which is men), but their sum is the headcount
      that was checked. */
  lemma SavedCounts(form: SetupForm, minParticipants: int, storageThrows: bool)
    requires ValidateForm(form, minParticipants, storageThrows).Saved?
    ensures var p := ValidateForm(form, minParticipants, storageThrows).data.participants;
      p == map[Men := CountValue(form.womenCount), Women := CountValue(form.nonbinaryCount),
               Nonbinary := CountValue(form.menCount)]
      && p[Men] + p[Women] + p[Nonbinary] == Headcount(form) >= minParticipants
  {
  }

  /** The main window reads the buttons back rotated the same way
      (`women` from `types[0]` and so on), so each button shows exactly when
      its own input counted someone. */
  lemma ButtonsFollowInputs(form: SetupForm, minParticipants: int, storageThrows: bool)
    requires ValidateForm(form, minParticipants, storageThrows).Saved?
    ensures MeetingControl.VisibleButtons(ValidateForm(form, minParticipants, storageThrows).data.participants)
         == Visibility(CountValue(form.womenCount) > 0, CountValue(form.nonbinaryCount) > 0,
                       CountValue(form.menCount) > 0)
  {
    SavedCounts(form, minParticipants, storageThrows);
  }

  /** A blank name is reported whatever else the form holds: whitespace
      only reads as no name (and the alert throws on a view without
      `showAlert`). */
  lemma BlankNameRejected(form: SetupForm, minParticipants: int, storageThrows: bool)
    requires form.name.Some? && forall i :: 0 <= i < |form.name.value| ==> IsJsWhitespace(form.name.value[i])
    ensures ValidateForm(form, minParticipants, storageThrows)
         == if form.showAlert then Rejected(NameRequired) else Thrown
  {
    TrimEmpty(form.name.value);
  }
}

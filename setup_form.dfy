/** The setup form as both validators read it (js/controllers/setupController.js
    and js/views/setupView.js): a meeting name, a date and three participant
    counts, each from an input element that may be missing. */
module SetupForms {
  import opened Common

  /** The characters `String.prototype.trim` removes: the white space and line
      terminator code points of section 12.2 and 12.3 of ECMA-262. */
  predicate IsJsWhitespace(c: char)
  {
    c == '\t' || c == '\n' || c == '\U{000B}' || c == '\U{000C}' || c == '\r' || c == ' '
    || c == '\U{00A0}' || c == '\U{1680}' || ('\U{2000}' <= c <= '\U{200A}')
    || c == '\U{2028}' || c == '\U{2029}' || c == '\U{202F}' || c == '\U{205F}'
    || c == '\U{3000}' || c == '\U{FEFF}'
  }

  /** Leading white space removed. */
  function TrimStart(s: string): (r: string)
    ensures |r| <= |s| && r == s[|s| - |r|..]
    ensures r != [] ==> !IsJsWhitespace(r[0])
  {
    if s != [] && IsJsWhitespace(s[0]) then TrimStart(s[1..]) else s
  }

  /** Trailing white space removed. */
  function TrimEnd(s: string): (r: string)
    ensures |r| <= |s| && r == s[..|r|]
    ensures r != [] ==> !IsJsWhitespace(r[|r| - 1])
  {
    if s != [] && IsJsWhitespace(s[|s| - 1]) then TrimEnd(s[..|s| - 1]) else s
  }

  /** `s.trim()`: white space removed at both ends. */
  function Trim(s: string): (r: string)
    ensures |r| <= |TrimStart(s)| <= |s| && r == TrimStart(s)[..|r|]
    ensures r != [] ==> !IsJsWhitespace(r[0]) && !IsJsWhitespace(r[|r| - 1])
  {
    TrimEnd(TrimStart(s))
  }

  /** A string trims to nothing exactly when it is all white space. */
  lemma {:induction false} TrimEmpty(s: string)
    ensures Trim(s) == "" <==> forall i :: 0 <= i < |s| ==> IsJsWhitespace(s[i])
  {
    TrimStartEmpty(s);
    var t := TrimStart(s);
    if t != [] {
      assert TrimEnd(t) != [] by {
        TrimEndKeeps(t);
      }
    }
  }

  /** Leading white space only: trimming the start leaves nothing. */
  lemma {:induction false} TrimStartEmpty(s: string)
    ensures TrimStart(s) == "" <==> forall i :: 0 <= i < |s| ==> IsJsWhitespace(s[i])
    decreases |s|
  {
    if s != [] && IsJsWhitespace(s[0]) {
      TrimStartEmpty(s[1..]);
      assert forall i :: 0 < i < |s| ==> s[i] == s[1..][i - 1];
    }
  }

  /** A string that starts with a non-white character keeps it when the end is trimmed. */
  lemma {:induction false} TrimEndKeeps(s: string)
    requires s != [] && !IsJsWhitespace(s[0])
    ensures TrimEnd(s) != []
    decreases |s|
  {
    if IsJsWhitespace(s[|s| - 1]) {
      TrimEndKeeps(s[..|s| - 1]);
    }
  }

  /** A count input: no element, an element with an empty value, or a number
      (`parseInt` of a value that is not a number is not modelled). */
  datatype CountField = NoElement | Empty | Number(n: int)

  /** `parseInt(field?.value || 0)`: a missing element and an empty value both read 0. */
  function CountValue(f: CountField): (n: int)
    ensures f.Number? ==> n == f.n
    ensures !f.Number? ==> n == 0
  {
    match f
    case Number(n) => n
    case _ => 0
  }

  /** The view object a validator reads, one field per property it touches:
      `meetingNameInput` and `dateInput` (`None` when the element is
      missing), `menCount`, `womenCount`, `nonBinaryCount` (the property
      js/views/setupView.js assigns and reads), `nonbinaryCount` (the
      property js/controllers/setupController.js reads, `NoElement` when the
      object does not have it) and whether the object has a `showAlert`
      method. */
  datatype SetupForm = SetupForm(
    name: Option<string>,
    date: Option<string>,
    menCount: CountField,
    womenCount: CountField,
    nonBinaryCount: CountField,
    nonbinaryCount: CountField,
    showAlert: bool)

  /** `!(!input || !input.value.trim())`. */
  predicate NameGiven(form: SetupForm)
  {
    form.name.Some? && Trim(form.name.value) != ""
  }

  /** `!(!input || !input.value)`. */
  predicate DateGiven(form: SetupForm)
  {
    Truthy(form.date)
  }

  /** The alerts a validator shows. */
  datatype Alert = NameRequired | DateRequired | MinParticipants | SaveToLocalFailed

  /** The meeting record a validator writes to storage. */
  datatype SetupData = SetupData(name: string, date: string, participants: map<string, int>)

  /** The end of a validation: rejected with an alert (returns false), the
      meeting written (returns true), the save caught failing (alert, returns
      false), or an exception escaping the validator. */
  datatype Validation = Rejected(alert: Alert) | Saved(data: SetupData) | SaveFailed | Thrown
}

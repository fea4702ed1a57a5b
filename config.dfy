/** The configuration constants the core reads (js/utils/config.js). */
module Config {

  /** `CONFIG.GENDERS.types`, in this order. */
  const Men: string := "men"
  const Women: string := "women"
  const Nonbinary: string := "nonbinary"
  const Types: seq<string> := [Men, Women, Nonbinary]
  const TypeSet: set<string> := {Men, Women, Nonbinary}

  /** `CONFIG.TIMER.UPDATE_ANIMATION_FRAME`: the shared timer ticks on
      animation frames, not on a `setInterval` handle. */
  const UpdateAnimationFrame: bool := true

  /** `DEFAULT_DISPLAY` (timer and formatting): not defined in config.js;
      the two-digit pair format the rest of the code produces for zero is used. */
  const DefaultDisplay: string := "00:00"

  /** `MIN_PARTICIPANTS`: the literal of setupView.js and the wording of
      `CONFIG.ERRORS.MIN_PARTICIPANTS` (at least two participants). */
  const SetupViewMinParticipants: int := 2

  lemma TypesDistinct()
    ensures forall i, j :: 0 <= i < j < |Types| ==> Types[i] != Types[j]
    ensures forall g :: g in TypeSet <==> g in Types
  {
  }
}

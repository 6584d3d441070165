/**
 * The onboarding steps as the modular screen reads them from its static
 * configuration. Only the fields the screen code reads are kept; the texts
 * and icons a slide shows are not part of this model.
 */
module OnboardingData {
  import opened JsText
  import PhoneForm

  /** One step: `colorClasses?.primary`, `legacy?.color`, `isLast` and the
      `form` configuration of the last step (`None` for a key that is absent,
      at either level of the optional chain). */
  datatype Step = Step(
    primaryColorClass: Option<string>,
    legacyColor: Option<string>,
    isLast: bool,
    form: PhoneForm.ConfigOverrides)

  /** `settings.phoneValidationRegex` (as the predicate its `RegExp` tests)
      and `settings.maxPhoneLength`. */
  datatype Settings = Settings(phoneValidation: PhoneForm.Pattern, maxPhoneLength: Option<int>)

  /** `data[index]?.legacy?.color`. */
  function LegacyColorAt(steps: seq<Step>, index: int): (r: Option<string>)
    ensures 0 <= index < |steps| ==> r == steps[index].legacyColor
    ensures !(0 <= index < |steps|) ==> r.None?
  {
    if 0 <= index < |steps| then steps[index].legacyColor else None
  }

  /** `data[index]?.colorClasses?.primary`. */
  function PrimaryColorClassAt(steps: seq<Step>, index: int): (r: Option<string>)
    ensures 0 <= index < |steps| ==> r == steps[index].primaryColorClass
    ensures !(0 <= index < |steps|) ==> r.None?
  {
    if 0 <= index < |steps| then steps[index].primaryColorClass else None
  }
}

/**
 * The pre-registration form of the modular screen: one phone number field,
 * one submit button, a validator and an error line.
 *
 * The component's props become the constructor's parameters, its two
 * `useState` hooks (`phoneNumber`, `error`) the fields of `Form`, and its
 * callbacks the values `HandleSubmit` returns. The regular expression a
 * caller may pass is a predicate on the trimmed text.
 */
module PhoneForm {
  import opened JsText
  import opened ClassNames
  import opened NativeUi

  /** `config.validationMessages`. */
  datatype Messages = Messages(required: string, invalid: string, success: string)

  /** The merged form configuration. */
  datatype Config = Config(
    phoneInputPlaceholder: string,
    submitButtonText: string,
    validationMessages: Messages)

  /** The keys a `formConfig` prop sets; `None` is a key that is absent. */
  datatype ConfigOverrides = ConfigOverrides(
    phoneInputPlaceholder: Option<string>,
    submitButtonText: Option<string>,
    validationMessages: Option<Messages>)

  /** `formConfig = {}`. */
  const NoOverrides := ConfigOverrides(None, None, None)

  /** The token the success message template has in place of the number. */
  const Placeholder := "{phoneNumber}"

  const SuccessPrefix := "Merci ! Votre préinscription avec le numéro "
  const SuccessSuffix := " a été enregistrée avec succès."

  const DefaultMessages := Messages(
    "Numéro requis",
    "Format de numéro invalide",
    SuccessPrefix + Placeholder + SuccessSuffix)

  const DefaultConfig := Config("Votre numéro de téléphone", "Préinscription", DefaultMessages)

  /** `maxLength = 10`. */
  const DefaultMaxLength := 10

  /** `{ ...defaultConfig, ...formConfig }`: a key the caller sets replaces
      the default one whole, so a `validationMessages` object replaces all
      three default messages. */
  function MergeConfig(overrides: ConfigOverrides): (c: Config)
    ensures overrides == NoOverrides ==> c == DefaultConfig
    ensures overrides.validationMessages.Some? ==> c.validationMessages == overrides.validationMessages.value
    ensures overrides.validationMessages.None? ==> c.validationMessages == DefaultMessages
    ensures overrides.phoneInputPlaceholder.Some? ==> c.phoneInputPlaceholder == overrides.phoneInputPlaceholder.value
    ensures overrides.submitButtonText.Some? ==> c.submitButtonText == overrides.submitButtonText.value
  {
    Config(
      if overrides.phoneInputPlaceholder.Some? then overrides.phoneInputPlaceholder.value
      else DefaultConfig.phoneInputPlaceholder,
      if overrides.submitButtonText.Some? then overrides.submitButtonText.value
      else DefaultConfig.submitButtonText,
      if overrides.validationMessages.Some? then overrides.validationMessages.value
      else DefaultConfig.validationMessages)
  }

  /** `regex.test(text)` for the regular expression in force. */
  type Pattern = string -> bool

  /** A character of the fallback expression's class `[\\d\\s\\-\\(\\)]`: in
      a regular expression literal `\\` is a backslash, so the class holds a
      backslash, the letters `d` and `s`, and the parentheses (`\\-\\` is the
      range from a backslash to a backslash). */
  predicate FallbackClassChar(c: char): (r: bool)
    ensures '0' <= c <= '9' ==> !r
  {
    c == '\\' || c == 'd' || c == 's' || c == '(' || c == ')'
  }

  /** `/^01[\\d\\s\\-\\(\\)]{8,}$/.test(text)`. */
  predicate FallbackPattern(text: string): (r: bool)
    ensures r ==> |text| >= 10 && text[..2] == "01"
    ensures r ==> forall i :: 2 <= i < |text| ==> !('0' <= text[i] <= '9')
  {
    |text| >= 10 && text[0] == '0' && text[1] == '1'
    && forall i :: 2 <= i < |text| ==> FallbackClassChar(text[i])
  }

  /** `validationRegex || fallback`: a regular expression object is always
      truthy, so a given one is always used. */
  function ResolvePattern(validationRegex: Option<Pattern>): (p: Pattern)
    ensures validationRegex.None? ==> p == FallbackPattern
    ensures validationRegex.Some? ==> p == validationRegex.value
  {
    if validationRegex.Some? then validationRegex.value else FallbackPattern
  }

  /** What `validatePhoneNumber` returns. */
  datatype Validation = Validation(isValid: bool, message: string)

  /** `validatePhoneNumber(phone)`: the checks run on the trimmed text in
      order (present, matching, not too long), and the success message has the
      first `{phoneNumber}` replaced by the trimmed text. */
  function ValidatePhoneNumber(phone: string, messages: Messages, pattern: Pattern, maxLength: int): (v: Validation)
    ensures AllSpace(phone) ==> v == Validation(false, messages.required)
    ensures !AllSpace(phone) && !v.isValid ==> v.message == messages.invalid
    ensures v.isValid <==> !AllSpace(phone) && pattern(Trim(phone)) && |Trim(phone)| <= maxLength
    ensures v.isValid ==> v.message == ReplaceFirst(messages.success, Placeholder, Trim(phone))
  {
    var trimmed := Trim(phone);
    TrimEmpty(phone);
    if trimmed == [] then Validation(false, messages.required)
    else if !pattern(trimmed) then Validation(false, messages.invalid)
    else if |trimmed| > maxLength then Validation(false, messages.invalid)
    else Validation(true, ReplaceFirst(messages.success, Placeholder, trimmed))
  }

  /** Whitespace around the number changes nothing in the verdict nor in the
      message. */
  lemma ValidationIgnoresSurroundingSpace(a: string, phone: string, b: string, messages: Messages, pattern: Pattern, maxLength: int)
    requires AllSpace(a) && AllSpace(b)
    ensures ValidatePhoneNumber(a + phone + b, messages, pattern, maxLength)
         == ValidatePhoneNumber(phone, messages, pattern, maxLength)
  {
    TrimIgnoresSurroundingSpace(a, phone, b);
    TrimEmpty(a + phone + b);
    TrimEmpty(phone);
  }

  /** With the default messages, an accepted number is thanked for by its
      trimmed text set between the two halves of the template (a `$` in the
      number would be read as a replacement pattern). */
  lemma DefaultSuccessMessage(phone: string, pattern: Pattern, maxLength: int)
    requires '$' !in Trim(phone)
    requires ValidatePhoneNumber(phone, DefaultMessages, pattern, maxLength).isValid
    ensures ValidatePhoneNumber(phone, DefaultMessages, pattern, maxLength).message
         == SuccessPrefix + Trim(phone) + SuccessSuffix
  {
    PrefixHasNoPlaceholder();
    ReplaceInTemplate(SuccessPrefix, Placeholder, SuccessSuffix, Trim(phone));
  }

  lemma PrefixHasNoPlaceholder()
    ensures Placeholder != [] && Placeholder[0] !in SuccessPrefix
  {
  }

  /** The fallback expression accepts only the digits "01" and then symbols:
      every character after the prefix is a backslash, `d`, `s` or a
      parenthesis, never a digit, so no ten-digit number passes it. */
  lemma FallbackAcceptsNoDigitAfterPrefix(text: string, i: int)
    requires FallbackPattern(text) && 2 <= i < |text|
    ensures !('0' <= text[i] <= '9')
  {
  }

  /** The number "0123456789" fails the fallback expression. */
  lemma FallbackRejectsTenDigits()
    ensures !FallbackPattern("0123456789")
  {
    var s := "0123456789";
    assert !FallbackClassChar(s[2]);
  }

  /** Under the defaults (fallback expression, at most 10 characters) the
      only numbers accepted are exactly ten characters long. */
  lemma DefaultsAcceptExactlyTen(phone: string)
    requires ValidatePhoneNumber(phone, DefaultMessages, FallbackPattern, DefaultMaxLength).isValid
    ensures |Trim(phone)| == 10
  {
  }

  /** What a press on the submit button hands on: the `onError` callback
      (with the text as typed) or the `onSubmit` callback (with the trimmed
      text), or a native alert when the callback is missing. */
  datatype SubmitEffect =
    | CallOnError(message: string, phoneNumber: string)
    | CallOnSubmit(phoneNumber: string, message: string)
    | ShowAlert(alert: Alert)

  /** The effect `handleSubmit` has for the text `phone` and its validation. */
  function SubmitEffectOf(phone: string, v: Validation, hasOnSubmit: bool, hasOnError: bool): (e: SubmitEffect)
    ensures e.CallOnError? <==> !v.isValid && hasOnError
    ensures e.CallOnSubmit? <==> v.isValid && hasOnSubmit
    ensures e.CallOnError? ==> e.phoneNumber == phone
    ensures e.CallOnSubmit? ==> e.phoneNumber == Trim(phone)
    ensures e.ShowAlert? ==> e.alert == (if v.isValid then ConfirmationAlert(v.message) else ErrorAlert(v.message))
    ensures !e.ShowAlert? ==> e.message == v.message
  {
    if !v.isValid then
      if hasOnError then CallOnError(v.message, phone) else ShowAlert(ErrorAlert(v.message))
    else if hasOnSubmit then CallOnSubmit(Trim(phone), v.message)
    else ShowAlert(ConfirmationAlert(v.message))
  }

  /** The pieces of the `containerClasses` template literal: the fixed
      classes, and the line breaks and indentation around them. */
  const ContainerBase := "w-full items-center"
  const TemplateIndent := "\n    "
  const TemplateEnd := "\n  "

  /** `containerClasses`. */
  function ContainerClasses(customClass: string): (r: string)
    ensures IsNormal(r)
  {
    Normalise(TemplateIndent + ContainerBase + TemplateIndent + customClass + TemplateEnd)
  }

  /** The container's classes are the fixed classes and then the caller's,
      each normalised, joined by one space, with no stray space when the
      caller gives none. */
  lemma ContainerClassesJoin(customClass: string)
    ensures ContainerClasses(customClass) == Glue(Normalise(ContainerBase), Normalise(customClass))
    ensures IsNormal(ContainerClasses(customClass))
  {
    assert AllSpace(TemplateIndent) && AllSpace(TemplateEnd);
    TemplateJoin(TemplateIndent, ContainerBase, TemplateIndent, customClass, TemplateEnd);
  }

  /** The form: its settings, fixed at creation, and its two pieces of state,
      the text in the field and the error line under it. */
  class Form {
    const config: Config
    const pattern: Pattern
    const maxLength: int
    const hasOnSubmit: bool
    const hasOnError: bool
    const customClass: string
    var phoneNumber: string
    var error: string

    /** Mounting the component with its props: empty field, no error. */
    constructor(formConfig: ConfigOverrides, validationRegex: Option<Pattern>, maxLength: Option<int>,
                hasOnSubmit: bool, hasOnError: bool, customClass: Option<string>)
      ensures config == MergeConfig(formConfig)
      ensures pattern == ResolvePattern(validationRegex)
      ensures this.maxLength == if maxLength.Some? then maxLength.value else DefaultMaxLength
      ensures this.hasOnSubmit == hasOnSubmit && this.hasOnError == hasOnError
      ensures this.customClass == if customClass.Some? then customClass.value else ""
      ensures phoneNumber == "" && error == ""
    {
      config := MergeConfig(formConfig);
      pattern := ResolvePattern(validationRegex);
      this.maxLength := if maxLength.Some? then maxLength.value else DefaultMaxLength;
      this.hasOnSubmit := hasOnSubmit;
      this.hasOnError := hasOnError;
      this.customClass := if customClass.Some? then customClass.value else "";
      phoneNumber := "";
      error := "";
    }

    /** The classes of the form's container: the fixed classes, then the
        caller's `customClass`, in normal form. */
    function ContainerClassName(): (r: string)
      reads this
      ensures r == Glue(Normalise(ContainerBase), Normalise(customClass))
      ensures IsNormal(r)
    {
      ContainerClassesJoin(customClass);
      ContainerClasses(customClass)
    }

    /** The validation of the text now in the field. */
    function CurrentValidation(): Validation
      reads this
    {
      ValidatePhoneNumber(phoneNumber, config.validationMessages, pattern, maxLength)
    }

    /** `handleSubmit`: validates the field, sets or clears the error line,
        and hands the outcome on. */
    method HandleSubmit() returns (effect: SubmitEffect)
      modifies this`error
      ensures effect == SubmitEffectOf(phoneNumber, CurrentValidation(), hasOnSubmit, hasOnError)
      ensures error == if CurrentValidation().isValid then "" else CurrentValidation().message
    {
      var validation := ValidatePhoneNumber(phoneNumber, config.validationMessages, pattern, maxLength);
      if !validation.isValid {
        error := validation.message;
        if hasOnError {
          effect := CallOnError(validation.message, phoneNumber);
        } else {
          effect := ShowAlert(ErrorAlert(validation.message));
        }
        return;
      }
      error := "";
      if hasOnSubmit {
        effect := CallOnSubmit(Trim(phoneNumber), validation.message);
      } else {
        effect := ShowAlert(ConfirmationAlert(validation.message));
      }
    }

    /** `handleTextChange`: the field takes the new text and any error line
        goes away. */
    method HandleTextChange(text: string)
      modifies this
      ensures phoneNumber == text && error == ""
    {
      phoneNumber := text;
      if error != "" {
        error := "";
      }
    }

    /** The "OK" button of the confirmation alert empties the field. */
    method ConfirmAlertOk()
      modifies this`phoneNumber
      ensures phoneNumber == ""
    {
      phoneNumber := "";
    }
  }
}

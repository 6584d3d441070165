/**
 * The modular onboarding screen: a horizontal pager over the configured
 * steps, the pagination dots under it, and "Précédent" / "Suivant" buttons.
 * Its state is the current step index; a button press also asks the pager to
 * scroll to the new step's offset. The fade animation a move starts is not
 * part of this model.
 */
module OnboardingScreen {
  import opened JsText
  import opened Paging
  import opened OnboardingData
  import opened NativeUi
  import PhoneForm
  import PaginationDots

  /** `getActiveDotColor(index, currentIdx)`: the current step's primary
      colour class for the current dot, when the step has a non-empty one,
      else the default blue. */
  function GetActiveDotColor(steps: seq<Step>, index: int, currentIdx: int): (r: string)
    ensures index != currentIdx ==> r == "bg-blue-500"
    ensures r != ""
    ensures r != "bg-blue-500" ==> PrimaryColorClassAt(steps, currentIdx) == Some(r)
    ensures index == currentIdx && PrimaryColorClassAt(steps, currentIdx).Some?
            && PrimaryColorClassAt(steps, currentIdx).value != ""
            ==> r == PrimaryColorClassAt(steps, currentIdx).value
  {
    if index == currentIdx then Or(PrimaryColorClassAt(steps, currentIdx), "bg-blue-500") else "bg-blue-500"
  }

  /** The props the screen gives `PaginationDots`. */
  function DotsProps(steps: seq<Step>, currentIndex: int): (p: PaginationDots.Props)
    ensures PaginationDots.Data(p) == steps && PaginationDots.CurrentIndex(p) == currentIndex
    ensures PaginationDots.DotSize(p) == "medium" && PaginationDots.ContainerClass(p) == "py-4"
    ensures PaginationDots.InactiveDotClass(p) == "bg-gray-300"
    ensures p.getActiveColor.Some?
    ensures forall index :: p.getActiveColor.value(index, currentIndex) == GetActiveDotColor(steps, index, currentIndex)
  {
    PaginationDots.Props(
      Some(steps), Some(currentIndex), None, None, Some("py-4"), Some("medium"),
      Some((index: int, currentIdx: int) => GetActiveDotColor(steps, index, currentIdx)))
  }

  /** The screen's dots take their colour from the current step: the current
      dot its primary class (or the default blue), every other dot the
      component's default grey. */
  lemma DotColorsFollowCurrentStep(steps: seq<Step>, currentIndex: int, index: int)
    ensures PaginationDots.ColorClass(DotsProps(steps, currentIndex), index)
         == if index == currentIndex then Or(PrimaryColorClassAt(steps, currentIndex), "bg-blue-500")
            else "bg-gray-300"
  {
  }

  /** `handlePhoneSubmit` and `handlePhoneError`: the toast the screen shows
      for what the form hands on. The screen gives the form both callbacks, so
      the form never raises an alert of its own. */
  function PhoneNotice(effect: PhoneForm.SubmitEffect): (n: Option<Notice>)
    ensures effect.CallOnSubmit? ==> n == Some(SuccessToast(effect.message))
    ensures effect.CallOnError? ==> n == Some(WarningToast(effect.message))
  {
    match effect
    case CallOnSubmit(_, message) => Some(SuccessToast(message))
    case CallOnError(message, _) => Some(WarningToast(message))
    case ShowAlert(_) => None
  }

  /** Whatever the number, a submission on this screen ends in a toast: a
      success toast with the form's confirmation when the number is accepted,
      a warning with the form's error message otherwise. */
  lemma PhoneSubmissionToast(phone: string, v: PhoneForm.Validation)
    ensures PhoneNotice(PhoneForm.SubmitEffectOf(phone, v, true, true))
         == Some(if v.isValid then SuccessToast(v.message) else WarningToast(v.message))
  {
  }

  /** The screen: its steps, the window width, whether the pager is mounted
      (`scrollViewRef.current`), the current step and the offsets the pager
      was asked to scroll to. */
  class Screen {
    const steps: seq<Step>
    const width: int
    const scrollViewMounted: bool
    var currentIndex: int
    var scrollRequests: seq<int>

    ghost predicate Valid()
      reads this
    {
      |steps| >= 1 && width > 0 && 0 <= currentIndex < |steps|
    }

    /** The screen opens on the first step. */
    constructor(steps: seq<Step>, width: int, scrollViewMounted: bool)
      requires |steps| >= 1 && width > 0
      ensures Valid()
      ensures this.steps == steps && this.width == width && this.scrollViewMounted == scrollViewMounted
      ensures currentIndex == 0 && scrollRequests == []
    {
      this.steps := steps;
      this.width := width;
      this.scrollViewMounted := scrollViewMounted;
      currentIndex := 0;
      scrollRequests := [];
    }

    /** `navigateToIndex(index)`: make `index` current and scroll the pager
        to its offset, if the pager is mounted. */
    method NavigateToIndex(index: int)
      requires Valid() && 0 <= index < |steps|
      modifies this
      ensures Valid() && currentIndex == index
      ensures scrollRequests == old(scrollRequests) + if scrollViewMounted then [index * width] else []
    {
      currentIndex := index;
      if scrollViewMounted {
        scrollRequests := scrollRequests + [index * width];
      }
    }

    /** `goToNext`. */
    method GoToNext()
      requires Valid()
      modifies this
      ensures Valid() && currentIndex == NextIndex(old(currentIndex), |steps|)
      ensures scrollRequests
           == old(scrollRequests) + if currentIndex != old(currentIndex) && scrollViewMounted then [currentIndex * width] else []
    {
      if currentIndex < |steps| - 1 {
        var nextIndex := currentIndex + 1;
        NavigateToIndex(nextIndex);
      }
    }

    /** `goToPrevious`. */
    method GoToPrevious()
      requires Valid()
      modifies this
      ensures Valid() && currentIndex == PreviousIndex(old(currentIndex))
      ensures scrollRequests
           == old(scrollRequests) + if currentIndex != old(currentIndex) && scrollViewMounted then [currentIndex * width] else []
    {
      if currentIndex > 0 {
        var prevIndex := currentIndex - 1;
        NavigateToIndex(prevIndex);
      }
    }

    /** `handleScroll` for a scroll at offset `pos`. */
    method HandleScroll(pos: int)
      requires Valid()
      modifies this`currentIndex
      ensures Valid() && currentIndex == ScrollIndex(old(currentIndex), pos, width, |steps|)
    {
      var index := Round(pos, width);
      if index != currentIndex && index >= 0 && index < |steps| {
        currentIndex := index;
      }
    }

    /** `isFirstStep`: the "Précédent" button is hidden exactly when pressing
        it could not move. */
    function IsFirstStep(): (r: bool)
      reads this
      requires Valid()
      ensures r <==> PreviousIndex(currentIndex) == currentIndex
    {
      currentIndex == 0
    }

    /** `isLastStep`: the "Suivant" button is hidden exactly when pressing it
        could not move. */
    function IsLastStep(): (r: bool)
      reads this
      requires Valid()
      ensures r <==> NextIndex(currentIndex, |steps|) == currentIndex
    {
      currentIndex == |steps| - 1
    }

    /** The "Suivant" button's class, `currentStep?.colorClasses?.primary ||
        'bg-blue-500'`. */
    function NextButtonClass(): (r: string)
      reads this
      requires Valid()
      ensures r != ""
      ensures r != "bg-blue-500" ==> steps[currentIndex].primaryColorClass == Some(r)
    {
      Or(steps[currentIndex].primaryColorClass, "bg-blue-500")
    }

    /** The "Suivant" button's background, `currentStep?.legacy?.color ||
        '#3B82F6'`. */
    function NextButtonColor(): (r: string)
      reads this
      requires Valid()
      ensures r != ""
      ensures r != "#3B82F6" ==> steps[currentIndex].legacyColor == Some(r)
    {
      Or(steps[currentIndex].legacyColor, "#3B82F6")
    }

    /** The pagination dots as the screen renders them. */
    function Dots(): (dots: seq<PaginationDots.Dot>)
      reads this
      ensures |dots| == |steps|
      ensures forall i :: 0 <= i < |dots| ==> dots[i] == PaginationDots.DotAt(DotsProps(steps, currentIndex), i)
    {
      PaginationDots.Dots(DotsProps(steps, currentIndex))
    }

    /** The current dot wears the same colour class and the same background
        as the "Suivant" button. */
    lemma CurrentDotMatchesNextButton()
      requires Valid()
      ensures PaginationDots.ColorClass(DotsProps(steps, currentIndex), currentIndex) == NextButtonClass()
      ensures Dots()[currentIndex].backgroundColor == NextButtonColor()
    {
      DotColorsFollowCurrentStep(steps, currentIndex, currentIndex);
    }
  }

  /** `renderOnboardingSlide` for the last step mounts the form with the
      step's form configuration, the settings' expression and length, and
      both callbacks, inside a container that also carries "w-full max-w-sm". */
  method MountPhoneForm(step: Step, settings: Settings) returns (form: PhoneForm.Form)
    ensures fresh(form)
    ensures form.config == PhoneForm.MergeConfig(step.form)
    ensures form.pattern == settings.phoneValidation
    ensures form.maxLength == if settings.maxPhoneLength.Some? then settings.maxPhoneLength.value else PhoneForm.DefaultMaxLength
    ensures form.hasOnSubmit && form.hasOnError
    ensures form.customClass == "w-full max-w-sm"
    ensures form.phoneNumber == "" && form.error == ""
  {
    form := new PhoneForm.Form(step.form, Some(settings.phoneValidation), settings.maxPhoneLength, true, true, Some("w-full max-w-sm"));
  }
}

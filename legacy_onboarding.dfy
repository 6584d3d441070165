/**
 * The older, self-contained onboarding screen: four steps written into the
 * screen itself, inline-styled dots and buttons, and its own phone field
 * with a validation of its own. The texts, icons and styles of the slides,
 * and the fade animation, are not part of this model.
 */
module LegacyOnboarding {
  import opened JsText
  import opened Paging
  import opened NativeUi
  import Seqs

  /** The `color` of the four inline steps, in order; the last step is the
      one with the form. */
  const StepColors: seq<string> := ["#FF8A65", "#9C27B0", "#FF5722", "#4CAF50"]

  /** The background of every dot but the current one. */
  const InactiveDotColor := "#E0E0E0"

  /** The texts of `handlePreregistration`'s alerts; the confirmation sets
      the number between the two halves. */
  const RequiredMessage := "Numéro requis"
  const InvalidMessage := "Format de numéro invalide"
  const ThanksPrefix := "Merci ! Votre préinscription avec le numéro "
  const ThanksSuffix := " a été enregistrée avec succès."

  /** A character of the class `[\d\s\-\(\)]`: an ASCII digit, whitespace, a
      hyphen or a parenthesis. */
  predicate PhoneChar(c: char): (r: bool)
    ensures '0' <= c <= '9' ==> r
    ensures r ==> c != '+'
  {
    '0' <= c <= '9' || IsSpace(c) || c == '-' || c == '(' || c == ')'
  }

  /** `/^[+]?[\d\s\-\(\)]{8,}$/.test(text)`: an optional plus sign, then at
      least eight characters of the class and nothing else. */
  predicate LegacyPhonePattern(text: string): (r: bool)
    ensures r ==> |text| >= 8
    ensures r ==> forall i :: 0 < i < |text| ==> text[i] != '+'
  {
    (|text| >= 8 && forall i :: 0 <= i < |text| ==> PhoneChar(text[i]))
    || (|text| >= 9 && text[0] == '+' && forall i :: 1 <= i < |text| ==> PhoneChar(text[i]))
  }

  /** `handlePreregistration`'s outcome for the text in the field: the
      checks look at the trimmed text, the confirmation quotes the text as
      typed. */
  function PreregistrationAlert(phone: string): (a: Alert)
    ensures AllSpace(phone) ==> a == ErrorAlert(RequiredMessage)
    ensures a.ConfirmationAlert? <==> !AllSpace(phone) && LegacyPhonePattern(Trim(phone))
    ensures !AllSpace(phone) && !a.ConfirmationAlert? ==> a == ErrorAlert(InvalidMessage)
    ensures a.ConfirmationAlert? ==> a.message == ThanksPrefix + phone + ThanksSuffix
  {
    TrimEmpty(phone);
    if Trim(phone) == [] then ErrorAlert(RequiredMessage)
    else if !LegacyPhonePattern(Trim(phone)) then ErrorAlert(InvalidMessage)
    else ConfirmationAlert(ThanksPrefix + phone + ThanksSuffix)
  }

  /** The legacy check has no upper bound on the length: any run of at least
      eight digits, however long, is confirmed. */
  lemma AcceptsDigitsOfAnyLength(phone: string)
    requires |phone| >= 8
    requires forall i :: 0 <= i < |phone| ==> '0' <= phone[i] <= '9'
    ensures PreregistrationAlert(phone).ConfirmationAlert?
  {
    assert !IsSpace(phone[0]) && !IsSpace(phone[|phone| - 1]);
    TrimOf([], phone, []);
    Seqs.EmptyEnds(phone);
  }

  /** Unlike the modular form, the confirmation quotes the number with the
      whitespace typed around it, while the check ignores that whitespace. */
  lemma ConfirmationKeepsSurroundingSpace(a: string, phone: string, b: string)
    requires AllSpace(a) && AllSpace(b)
    requires PreregistrationAlert(phone).ConfirmationAlert?
    ensures PreregistrationAlert(a + phone + b)
         == ConfirmationAlert(ThanksPrefix + (a + phone + b) + ThanksSuffix)
  {
    TrimIgnoresSurroundingSpace(a, phone, b);
    TrimEmpty(a + phone + b);
    TrimEmpty(phone);
  }

  /** The screen: the window width, whether the pager is mounted, the
      current step, the phone field's text and the offsets the pager was
      asked to scroll to. */
  class Screen {
    const width: int
    const scrollViewMounted: bool
    var currentIndex: int
    var phoneNumber: string
    var scrollRequests: seq<int>

    ghost predicate Valid()
      reads this
    {
      width > 0 && 0 <= currentIndex < |StepColors|
    }

    /** The screen opens on the first step with an empty field. */
    constructor(width: int, scrollViewMounted: bool)
      requires width > 0
      ensures Valid()
      ensures this.width == width && this.scrollViewMounted == scrollViewMounted
      ensures currentIndex == 0 && phoneNumber == "" && scrollRequests == []
    {
      this.width := width;
      this.scrollViewMounted := scrollViewMounted;
      currentIndex := 0;
      phoneNumber := "";
      scrollRequests := [];
    }

    /** `goToNext`. */
    method GoToNext()
      requires Valid()
      modifies this`currentIndex, this`scrollRequests
      ensures Valid() && currentIndex == NextIndex(old(currentIndex), |StepColors|)
      ensures scrollRequests
           == old(scrollRequests) + if currentIndex != old(currentIndex) && scrollViewMounted then [currentIndex * width] else []
    {
      if currentIndex < |StepColors| - 1 {
        var nextIndex := currentIndex + 1;
        currentIndex := nextIndex;
        if scrollViewMounted {
          scrollRequests := scrollRequests + [nextIndex * width];
        }
      }
    }

    /** `goToPrevious`. */
    method GoToPrevious()
      requires Valid()
      modifies this`currentIndex, this`scrollRequests
      ensures Valid() && currentIndex == PreviousIndex(old(currentIndex))
      ensures scrollRequests
           == old(scrollRequests) + if currentIndex != old(currentIndex) && scrollViewMounted then [currentIndex * width] else []
    {
      if currentIndex > 0 {
        var prevIndex := currentIndex - 1;
        currentIndex := prevIndex;
        if scrollViewMounted {
          scrollRequests := scrollRequests + [prevIndex * width];
        }
      }
    }

    /** `handleScroll` for a scroll at offset `pos`. */
    method HandleScroll(pos: int)
      requires Valid()
      modifies this`currentIndex
      ensures Valid() && currentIndex == ScrollIndex(old(currentIndex), pos, width, |StepColors|)
    {
      var index := Round(pos, width);
      if index != currentIndex && index >= 0 && index < |StepColors| {
        currentIndex := index;
      }
    }

    /** `onChangeText={setPhoneNumber}`. */
    method ChangePhoneNumber(text: string)
      modifies this`phoneNumber
      ensures phoneNumber == text
    {
      phoneNumber := text;
    }

    /** `handlePreregistration`: raises the alert for the field's text and
        changes nothing. */
    method HandlePreregistration() returns (alert: Alert)
      ensures alert == PreregistrationAlert(phoneNumber)
      ensures alert.ConfirmationAlert? ==> !AllSpace(phoneNumber) && LegacyPhonePattern(Trim(phoneNumber))
    {
      if Trim(phoneNumber) == [] {
        return ErrorAlert(RequiredMessage);
      }
      if !LegacyPhonePattern(Trim(phoneNumber)) {
        return ErrorAlert(InvalidMessage);
      }
      alert := ConfirmationAlert(ThanksPrefix + phoneNumber + ThanksSuffix);
    }

    /** The confirmation's "OK" button empties the field. */
    method ConfirmOk()
      modifies this`phoneNumber
      ensures phoneNumber == ""
    {
      phoneNumber := "";
    }

    /** The background of the dot at `index`: only the current dot is
        coloured, in its step's colour. */
    function DotColor(index: int): (c: string)
      reads this
      requires Valid()
      ensures c != InactiveDotColor <==> index == currentIndex
      ensures index == currentIndex ==> c == StepColors[currentIndex]
    {
      if index == currentIndex then StepColors[currentIndex] else InactiveDotColor
    }

    /** The scale of the dot at `index`. */
    function DotScale(index: int): (s: real)
      reads this
      ensures s == 1.2 <==> index == currentIndex
      ensures index != currentIndex ==> s == 1.0
    {
      if index == currentIndex then 1.2 else 1.0
    }

    /** The "Précédent" button is shown exactly when pressing it moves. */
    function ShowsPrevious(): (r: bool)
      reads this
      requires Valid()
      ensures r <==> PreviousIndex(currentIndex) != currentIndex
    {
      currentIndex > 0
    }

    /** The "Suivant" button is shown exactly when pressing it moves. */
    function ShowsNext(): (r: bool)
      reads this
      requires Valid()
      ensures r <==> NextIndex(currentIndex, |StepColors|) != currentIndex
    {
      currentIndex < |StepColors| - 1
    }
  }
}

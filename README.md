# Onboarding screens: a Dafny model

This project models the core of a React Native onboarding flow. The flow is a
horizontal pager over a fixed list of steps, with pagination dots under it,
"Précédent" / "Suivant" buttons, and a phone-number pre-registration form on
the last step. The repository holds two versions of the screen, and both are
modelled:

- the modular screen (`src/screens/Onboarding.jsx`), built from the
  `PhoneForm` and `PaginationDots` components;
- the legacy screen (`screens/Onboarding.jsx`), which inlines its four steps,
  its dots and its own phone validation.

The model has these modules:

- `JsText` covers the JavaScript string behaviour the code relies on:
  - `trim()` over the ECMAScript whitespace set;
  - `String.prototype.replace` with a string pattern, which replaces the first
    occurrence only and still expands `$$`, `$&`, `` $` `` and `$'` in the
    replacement;
  - `a || b` on possibly-missing strings, where `""` is falsy.
- `ClassNames` covers the `` `...`.trim().replace(/\s+/g, ' ') `` normalisation
  every class template goes through. Its central law, `NormaliseJoin`, says
  that normalising `x`, then whitespace, then `y` joins the two normalised
  parts with exactly one space and leaves no stray space when a part is blank.
- `Paging` holds the step-index state machine both screens share:
  - `NextIndex` and `PreviousIndex` for the buttons;
  - `Math.round(offset / width)` and `ScrollIndex` for each scroll event the
    pager reports while it moves, during a drag or during the animated
    scroll a button starts.
- `PhoneForm` covers the modular form:
  - the shallow merge of its configuration;
  - the fallback regular expression;
  - `validatePhoneNumber`, and what `handleSubmit` hands on;
  - the `Form` class holding the `phoneNumber` and `error` state.
- `PaginationDots` is the dots component, as a pure function of its props.
- `OnboardingScreen` is the modular screen: a `Screen` class with the
  `currentIndex` state, the dot colour resolver, the toasts, and the mounting
  of the form.
- `LegacyOnboarding` is the legacy screen: a `Screen` class with
  `currentIndex` and `phoneNumber`, its own validation, its inline dots and
  its buttons.
- `NativeUi` defines the content of the alerts and toasts handed to the
  platform.

Three behaviours of the code are worth stating outright:

- **The form's fallback pattern accepts no digit after `01`**
  (`src/components/onboarding/PhoneForm.jsx:42`). It is written
  `/^01[\\d\\s\\-\\(\\)]{8,}$/`. Inside a regular expression literal,
  `\\` is a literal backslash, so the class holds only a backslash, `d`, `s`
  and the two parentheses (`FallbackPattern`, `FallbackRejectsTenDigits`).
  The modular screen always supplies its own expression, so this fallback
  only applies when the component is used without one.
- **The legacy confirmation quotes the number as typed**, surrounding
  whitespace included (`screens/Onboarding.jsx:132`), while the check looks
  at the trimmed text (`ConfirmationKeepsSurroundingSpace`).
- **A scroll event whose nearest page does not exist leaves the index as it
  is** (`src/screens/Onboarding.jsx:80`, `ScrollPastEnds`).

## Model

| member | source | states |
|---|---|---|
| JsText.TrimStart | src/components/onboarding/PhoneForm.jsx:46 | dropping leading whitespace never lengthens the text and leaves it empty or starting with a non-whitespace character |
| JsText.Trim | src/components/onboarding/PhoneForm.jsx:46 | `trim()`: never longer than the input and never ending in whitespace; `TrimParts`, `TrimEmpty` and `TrimIdempotent` pin it down |
| JsText.TrimParts | src/components/onboarding/PhoneForm.jsx:46 | `trim()` splits any text into a blank prefix, the trimmed core and a blank suffix, and the core has no whitespace at either end |
| JsText.TrimEmpty | src/components/onboarding/PhoneForm.jsx:46-48 | the trimmed text is empty exactly when the whole text is whitespace, which is what `!trimmedPhone` tests |
| JsText.TrimIgnoresSurroundingSpace | src/components/onboarding/PhoneForm.jsx:46 | whitespace added around a text does not change its trimmed form |
| JsText.TrimIdempotent | src/components/onboarding/PhoneForm.jsx:46 | trimming twice is trimming once |
| JsText.IndexOf | src/components/onboarding/PhoneForm.jsx:71 | the position `replace` acts on is the first occurrence of the pattern, and there is none when the pattern does not occur |
| JsText.Substitution | src/components/onboarding/PhoneForm.jsx:71 | the replacement text as `replace` expands it: `$$` gives `$`, `$&` the match, `` $` `` the text before it, `$'` the text after it, and any other `$` stays; `SubstitutionLiteral` shows a `$`-free replacement is unchanged |
| JsText.ReplaceFirst | src/components/onboarding/PhoneForm.jsx:71 | `replace` with a string pattern leaves the text unchanged when the pattern is absent, and otherwise, for a `$`-free replacement, puts the replacement in place of the first occurrence only |
| JsText.SubstitutionLiteral | src/components/onboarding/PhoneForm.jsx:71 | a replacement with no `$` is inserted exactly as given |
| JsText.ReplaceInTemplate | src/components/onboarding/PhoneForm.jsx:71 | replacing the placeholder in prefix + placeholder + suffix gives prefix + replacement + suffix, when the prefix cannot hold the placeholder and the replacement has no `$` |
| JsText.Or | src/screens/Onboarding.jsx:184-186 | `value \|\| fallback` on strings: a present, non-empty value wins; a missing or empty one gives the fallback |
| ClassNames.CollapseSpaces | src/components/commons/PaginationDots.jsx:36 | `replace(/\s+/g, ' ')` leaves no two adjacent whitespace characters and only plain spaces, is empty only for empty input, and keeps whether the text starts with whitespace |
| ClassNames.CollapseLast | src/components/commons/PaginationDots.jsx:36 | the collapsed text ends in whitespace exactly when the input does |
| ClassNames.Normalise | src/components/commons/PaginationDots.jsx:36 | `trim().replace(/\s+/g, ' ')` yields a normal class string, which is empty exactly when the input is blank |
| ClassNames.NormalFixed | src/components/commons/PaginationDots.jsx:36 | a class string that is already normal is left unchanged |
| ClassNames.NormaliseIdempotent | src/components/commons/PaginationDots.jsx:36 | normalising twice is normalising once |
| ClassNames.CollapseSplit | src/components/commons/PaginationDots.jsx:36 | collapsing two non-blank parts separated by whitespace collapses each part and puts one space between them |
| ClassNames.NormaliseJoin | src/components/commons/PaginationDots.jsx:55-59 | normalising `x`, whitespace, `y` gives the normalised parts joined by one space, and a blank part leaves no stray space |
| ClassNames.TemplateJoin | src/components/onboarding/PhoneForm.jsx:118-121 | a class template with two interpolated parts normalises to those parts, each normalised, joined by one space |
| ClassNames.TemplateJoin3 | src/components/commons/PaginationDots.jsx:55-59 | the same law for a template with three parts |
| Paging.Round | src/screens/Onboarding.jsx:79 | `Math.round(pos / width)` is the integer `k` with `(2k-1)·width <= 2·pos < (2k+1)·width`: the nearest page, a tie going up |
| Paging.RoundUnique | src/screens/Onboarding.jsx:79 | that integer is unique, so any `k` within half a page of the offset is the rounded page |
| Paging.RoundNearPage | src/screens/Onboarding.jsx:79 | an offset less than half a page from the start of page `k` rounds to `k` |
| Paging.NextIndex | src/screens/Onboarding.jsx:51-56 | "Suivant" moves one step on or stays, and keeps the index within the steps |
| Paging.PreviousIndex | src/screens/Onboarding.jsx:59-64 | "Précédent" moves one step back or stays, and never goes below the first step |
| Paging.ScrollIndex | src/screens/Onboarding.jsx:77-83 | one scroll event either keeps the step or adopts the rounded page, and keeps the index within the steps |
| Paging.ScrollLandsOnPage | src/screens/Onboarding.jsx:77-83 | a scroll event less than half a page from an existing step sets that step, whatever the step was before |
| Paging.ScrollDuringForwardAnimation | src/screens/Onboarding.jsx:51-83 | while the animated scroll a "Suivant" press starts is in its first half page, its scroll events set the index back to the step the press left |
| Paging.ScrollToRequestedOffset | src/screens/Onboarding.jsx:67-83 | the scroll event at the offset a button requested (`index * width`) leaves the step unchanged |
| Paging.ScrollPastEnds | src/screens/Onboarding.jsx:80 | an overscroll whose nearest page does not exist leaves the step unchanged |
| Paging.AdvanceStopsAtLast | src/screens/Onboarding.jsx:51-56 | pressing "Suivant" `k` times moves `k` steps on, stopping at the last step |
| Paging.RetreatStopsAtFirst | src/screens/Onboarding.jsx:59-64 | pressing "Précédent" `k` times moves `k` steps back, stopping at the first step |
| Paging.NextPreviousInverse | src/screens/Onboarding.jsx:51-64 | each button undoes a move the other one made |
| PhoneForm.MergeConfig | src/components/onboarding/PhoneForm.jsx:31-41 | without overrides the defaults apply; a key the caller sets replaces the default whole, so `validationMessages` replaces all three messages |
| PhoneForm.ResolvePattern | src/components/onboarding/PhoneForm.jsx:42 | a given expression is always used, and the fallback only when none is given |
| PhoneForm.FallbackClassChar | src/components/onboarding/PhoneForm.jsx:42 | the class `[\\d\\s\\-\\(\\)]` of the fallback expression holds a backslash, `d`, `s`, `(` and `)`, and no digit |
| PhoneForm.FallbackPattern | src/components/onboarding/PhoneForm.jsx:42 | a text the fallback expression accepts has at least ten characters, starts with "01", and has no digit after those two |
| PhoneForm.ContainerClasses | src/components/onboarding/PhoneForm.jsx:118-121 | the `containerClasses` template comes out a normal class string; `ContainerClassesJoin` gives its content |
| PhoneForm.ValidatePhoneNumber | src/components/onboarding/PhoneForm.jsx:45-73 | blank text gives `required`; otherwise a failure gives `invalid`; the number is accepted exactly when the trimmed text matches and is at most `maxLength` long, and then the message is the success template with its first `{phoneNumber}` replaced by the trimmed text |
| PhoneForm.ValidationIgnoresSurroundingSpace | src/components/onboarding/PhoneForm.jsx:45-73 | whitespace around the number changes neither the verdict nor the message |
| PhoneForm.DefaultSuccessMessage | src/components/onboarding/PhoneForm.jsx:37 | with the default messages, an accepted number without `$` is thanked for with its trimmed text between the two halves of the template |
| PhoneForm.FallbackAcceptsNoDigitAfterPrefix | src/components/onboarding/PhoneForm.jsx:42 | every character the fallback expression accepts after "01" is a backslash, `d`, `s` or a parenthesis, never a digit |
| PhoneForm.FallbackRejectsTenDigits | src/components/onboarding/PhoneForm.jsx:42 | the fallback expression rejects "0123456789" |
| PhoneForm.DefaultsAcceptExactlyTen | src/components/onboarding/PhoneForm.jsx:23-67 | with the fallback expression and the default `maxLength` of 10, every accepted number is exactly ten characters long once trimmed |
| PhoneForm.SubmitEffectOf | src/components/onboarding/PhoneForm.jsx:76-107 | a failure goes to `onError` with the raw text, or to an "Erreur" alert; a success goes to `onSubmit` with the trimmed text, or to a "Confirmation" alert; the message is the validation's |
| PhoneForm.ContainerClassesJoin | src/components/onboarding/PhoneForm.jsx:118-121 | the container classes are "w-full items-center" and then the caller's classes, normalised and joined by one space |
| PhoneForm.Form.constructor | src/components/onboarding/PhoneForm.jsx:17-42 | mounting merges the configuration, resolves the expression and the 10-character default, keeps `customClass` (`""` by default), and starts with an empty field and no error |
| PhoneForm.Form.ContainerClassName | src/components/onboarding/PhoneForm.jsx:118-124 | the container's classes are "w-full items-center" and then the form's `customClass`, normalised and joined by one space |
| PhoneForm.Form.HandleSubmit | src/components/onboarding/PhoneForm.jsx:76-107 | the error line becomes the failure message or is cleared on success, and the effect is the one `SubmitEffectOf` gives for the field's text |
| PhoneForm.Form.HandleTextChange | src/components/onboarding/PhoneForm.jsx:110-116 | the field takes the new text and the error line is cleared |
| PhoneForm.Form.ConfirmAlertOk | src/components/onboarding/PhoneForm.jsx:102 | the confirmation's OK empties the field |
| OnboardingData.LegacyColorAt | src/components/commons/PaginationDots.jsx:65 | `data[index]?.legacy?.color`: the step's legacy colour when the index names a step, and nothing (`undefined`) for an index out of range |
| OnboardingData.PrimaryColorClassAt | src/screens/Onboarding.jsx:97 | `onboardingSteps[index]?.colorClasses?.primary`: the step's primary class when the index names a step, and nothing for an index out of range |
| PaginationDots.Data | src/components/commons/PaginationDots.jsx:16 | `data` as given, or `[]` when left out |
| PaginationDots.CurrentIndex | src/components/commons/PaginationDots.jsx:17 | `currentIndex` as given, or 0 when left out |
| PaginationDots.ActiveDotClass | src/components/commons/PaginationDots.jsx:18 | `activeDotClass` as given, or `""` when left out |
| PaginationDots.InactiveDotClass | src/components/commons/PaginationDots.jsx:19 | `inactiveDotClass` as given, or "bg-gray-300" when left out |
| PaginationDots.ContainerClass | src/components/commons/PaginationDots.jsx:20 | `containerClass` as given, or `""` when left out |
| PaginationDots.DotSize | src/components/commons/PaginationDots.jsx:21 | `dotSize` as given, or "medium" when left out |
| PaginationDots.SizeClasses | src/components/commons/PaginationDots.jsx:26-30 | `sizes[dotSize]` ("w-2 h-2", "w-3 h-3", "w-4 h-4", or "undefined" for any other size) is never empty and never starts or ends with whitespace |
| PaginationDots.BaseDotClasses | src/components/commons/PaginationDots.jsx:39-41 | the `baseDotClasses` template comes out a normal class string; `BaseDotClassesJoin` gives its content |
| PaginationDots.ContainerClasses | src/components/commons/PaginationDots.jsx:33-36 | the `baseContainerClasses` template comes out a normal class string; `ContainerClassesJoin` gives its content |
| PaginationDots.ActiveColorClass | src/components/commons/PaginationDots.jsx:49-52 | a given `getActiveColor` decides the active colour from `(index, currentIndex)`; without it the active colour is `activeDotClass` (`""` when that is left out too) |
| PaginationDots.ColorClass | src/components/commons/PaginationDots.jsx:57 | the current dot takes the active colour class; any other dot takes `inactiveDotClass`, "bg-gray-300" by default |
| PaginationDots.ScaleClass | src/components/commons/PaginationDots.jsx:58 | the scale class is "scale-125" exactly for the current dot and "scale-100" exactly for every other |
| PaginationDots.DotAt | src/components/commons/PaginationDots.jsx:45-70 | only the current dot has scale 1.2 and the legacy colour of the current step (else "#3B82F6"); every other dot has scale 1 and "#E5E7EB" |
| PaginationDots.Dots | src/components/commons/PaginationDots.jsx:45 | there is one dot per element of `data` |
| PaginationDots.OneActiveDot | src/components/commons/PaginationDots.jsx:46-64 | at most one dot is enlarged, and one is exactly when the current index names an element of `data` |
| PaginationDots.DotClassesJoin | src/components/commons/PaginationDots.jsx:55-59 | a dot's classes are the base classes, its colour class and its scale class joined by single spaces, and are normal |
| PaginationDots.BaseDotClassesJoin | src/components/commons/PaginationDots.jsx:26-41 | the base dot classes are the size classes and then the fixed shape classes |
| PaginationDots.ContainerClassesJoin | src/components/commons/PaginationDots.jsx:33-36 | the container classes are the fixed layout classes and then the caller's |
| PaginationDots.InactiveDotsIgnoreActiveColor | src/components/commons/PaginationDots.jsx:49-57 | a dot that is not current gets the inactive class, whatever the active-colour function returns for it |
| PaginationDots.ActiveDotUsesActiveColor | src/components/commons/PaginationDots.jsx:49-59 | the current dot's classes are the base classes, the active colour class and "scale-125", joined by single spaces |
| OnboardingScreen.GetActiveDotColor | src/screens/Onboarding.jsx:96-101 | the current dot gets its step's primary class when that is present and non-empty; any other dot gets the default blue; the result is never empty, and any value but the default blue is the current step's primary class |
| OnboardingScreen.DotsProps | src/screens/Onboarding.jsx:148-154 | the dots get the screen's steps and index, size "medium", "py-4", the default grey for inactive dots, and `getActiveDotColor` as their colour function |
| OnboardingScreen.Screen.Dots | src/screens/Onboarding.jsx:148-154 | the screen renders one dot per step, each the dot `PaginationDots` draws at that index from `DotsProps` |
| OnboardingScreen.Screen.NextButtonClass | src/screens/Onboarding.jsx:184 | the "Suivant" class is never empty, and anything but "bg-blue-500" is the current step's primary class; `CurrentDotMatchesNextButton` ties it to the current dot |
| OnboardingScreen.Screen.NextButtonColor | src/screens/Onboarding.jsx:186 | the "Suivant" background is never empty, and anything but "#3B82F6" is the current step's legacy colour; `CurrentDotMatchesNextButton` ties it to the current dot |
| OnboardingScreen.DotColorsFollowCurrentStep | src/screens/Onboarding.jsx:148-154 | on this screen the current dot has the step's primary class (or the default blue) and every other dot has the default grey |
| OnboardingScreen.PhoneNotice | src/screens/Onboarding.jsx:86-93 | an accepted number gives a success toast and a rejected one a warning toast, each with the form's message |
| OnboardingScreen.PhoneSubmissionToast | src/screens/Onboarding.jsx:108-116 | since the screen passes both callbacks, every submission ends in a toast and never in an alert |
| OnboardingScreen.MountPhoneForm | src/screens/Onboarding.jsx:107-116 | the form gets the step's configuration, the settings' expression and maximum length (10 when absent), both callbacks, and `customClass` "w-full max-w-sm" |
| OnboardingScreen.Screen.constructor | src/screens/Onboarding.jsx:26 | the screen opens on the first step |
| OnboardingScreen.Screen.NavigateToIndex | src/screens/Onboarding.jsx:67-74 | the index becomes current, and the pager, when mounted, is asked to scroll to its offset |
| OnboardingScreen.Screen.GoToNext | src/screens/Onboarding.jsx:51-56 | the index becomes `NextIndex` of the old one; a scroll is requested only when it moved; the index stays in range |
| OnboardingScreen.Screen.GoToPrevious | src/screens/Onboarding.jsx:59-64 | the index becomes `PreviousIndex` of the old one; a scroll is requested only when it moved; the index stays in range |
| OnboardingScreen.Screen.HandleScroll | src/screens/Onboarding.jsx:77-83 | the index becomes `ScrollIndex` of the old one and stays in range |
| OnboardingScreen.Screen.IsFirstStep | src/screens/Onboarding.jsx:123 | "Précédent" is hidden exactly when pressing it could not move |
| OnboardingScreen.Screen.IsLastStep | src/screens/Onboarding.jsx:122 | "Suivant" is hidden exactly when pressing it could not move |
| OnboardingScreen.Screen.CurrentDotMatchesNextButton | src/screens/Onboarding.jsx:184-186 | the current dot has the same colour class and background as the "Suivant" button |
| LegacyOnboarding.PhoneChar | screens/Onboarding.jsx:124 | the class `[\d\s\-\(\)]` holds every ASCII digit, whitespace, `-`, `(` and `)`, and not `+` |
| LegacyOnboarding.LegacyPhonePattern | screens/Onboarding.jsx:124 | `/^[+]?[\d\s\-\(\)]{8,}$/` accepts only texts of at least eight characters with no `+` after the first; `AcceptsDigitsOfAnyLength` shows there is no upper bound |
| LegacyOnboarding.PreregistrationAlert | screens/Onboarding.jsx:117-143 | blank text gives "Numéro requis"; otherwise the number is confirmed exactly when the trimmed text matches the legacy expression, else "Format de numéro invalide"; the confirmation quotes the text as typed |
| LegacyOnboarding.AcceptsDigitsOfAnyLength | screens/Onboarding.jsx:124-125 | there is no upper bound: any run of eight or more digits is confirmed |
| LegacyOnboarding.ConfirmationKeepsSurroundingSpace | screens/Onboarding.jsx:118-132 | whitespace around an accepted number is ignored by the check but kept in the confirmation |
| LegacyOnboarding.Screen.constructor | screens/Onboarding.jsx:60-61 | the screen opens on the first step with an empty field |
| LegacyOnboarding.Screen.GoToNext | screens/Onboarding.jsx:82-92 | as on the modular screen, over the four inline steps |
| LegacyOnboarding.Screen.GoToPrevious | screens/Onboarding.jsx:95-105 | as on the modular screen, over the four inline steps |
| LegacyOnboarding.Screen.HandleScroll | screens/Onboarding.jsx:108-114 | the index becomes `ScrollIndex` of the old one over the four steps |
| LegacyOnboarding.Screen.ChangePhoneNumber | screens/Onboarding.jsx:166 | the field takes the new text |
| LegacyOnboarding.Screen.HandlePreregistration | screens/Onboarding.jsx:117-143 | changes nothing and raises the alert `PreregistrationAlert` gives for the field's text; it confirms only a non-blank number that matches |
| LegacyOnboarding.Screen.ConfirmOk | screens/Onboarding.jsx:136-138 | the confirmation's OK empties the field |
| LegacyOnboarding.Screen.DotColor | screens/Onboarding.jsx:213 | a dot is coloured (not "#E0E0E0") exactly when it is the current one, and then in its step's colour |
| LegacyOnboarding.Screen.DotScale | screens/Onboarding.jsx:214 | the current dot has scale 1.2 and every other dot scale 1, so only the current one is enlarged |
| LegacyOnboarding.Screen.ShowsPrevious | screens/Onboarding.jsx:223 | "Précédent" is shown exactly when pressing it moves |
| LegacyOnboarding.Screen.ShowsNext | screens/Onboarding.jsx:232 | "Suivant" is shown exactly when pressing it moves |

## Left out

- Rendering is not modelled: the JSX trees, `StyleSheet` styles, icons, the status bar, and the `Input`, `Button` and `OnboardingSlide` components. Only the values the core computes for them are modelled (class strings, dot styles, button visibility and colours).
- The fade animation (`animateTransition`) is fire-and-forget and changes no state the model reads, so it is not modelled. The animated `scrollTo` is recorded only as the offset requested. The scroll events the pager sends along the way are separate `HandleScroll` calls, and the model does not fix which offsets they report or when.
- Alerts and toasts are modelled by their content alone; showing them is platform I/O. `src/utils/Toast.js` is not part of this model. It writes the `text1` key twice in `ToastSuccess`, so the "Succès" title is lost there.
- Scroll offsets and the window width are whole pixels. Fractional offsets and floating-point division are not modelled. For whole pixels, `Round` gives exactly the value `Math.round(pos / width)` gives.
- Each state update takes effect at once. React's batching of `setState` is not modelled. Neither is the render-time `currentIndex` that `handleScroll` closes over.
- The onboarding JSON file is not part of this model. Its steps and settings are parameters. A step keeps only the fields the code reads, and each optional chain (`colorClasses?.primary`, `legacy?.color`) becomes one `Option`.
- A caller's regular expression is a predicate on the trimmed text; there is no regular-expression engine. The two expressions written in the code are spelled out as predicates.
- PhoneForm.MergeConfig: a `validationMessages` override is a complete set of three messages. An override that omits some messages, which would give `undefined` messages, is not modelled. Neither is a key explicitly set to `undefined`.
- The native `maxLength` of the text inputs is not modelled. `HandleTextChange` and `ChangePhoneNumber` take the text as delivered.
- PhoneForm.ValidatePhoneNumber: the length is counted in characters, not in UTF-16 code units. The two differ only for characters outside the Basic Multilingual Plane.
- PaginationDots.SizeClasses: a `dotSize` naming an inherited property of `Object.prototype` is treated like any other unknown size, giving "undefined".
- The extra props forwarded with `...props`, `buttonVariant`, the placeholder and the submit label reach only the rendering.
- OnboardingScreen.Screen.constructor requires at least one step. With no steps there is no valid current index.
- OnboardingScreen.Screen.NavigateToIndex requires an index in range, which its two callers always pass.
- The fixed class strings (such as "w-3 h-3 rounded-full mx-1 transition-all duration-300") are not shown to be normal character by character. The class laws state them as `Normalise` of the literal.

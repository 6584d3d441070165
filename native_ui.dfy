/**
 * What the onboarding code hands to the platform: a native alert
 * (`Alert.alert`) or a toast (`ToastSuccess` / `ToastWarning`). Showing them
 * is outside the model; only their content is.
 */
module NativeUi {

  /** The two alerts the onboarding code raises: a failed check, shown under
      the title "Erreur" without buttons; and a confirmation, shown under the
      title "Confirmation", whose single "OK" button empties the phone number
      field. */
  datatype Alert = ErrorAlert(message: string) | ConfirmationAlert(message: string)

  /** `ToastSuccess(description)` and `ToastWarning(description)`. */
  datatype Notice = SuccessToast(description: string) | WarningToast(description: string)
}

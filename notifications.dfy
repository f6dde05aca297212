/** Toast notifications the component dispatches to the host page. Dispatch itself is a
    platform call; the model keeps each toast as a value in a log. */
module Notifications {

  const ErrorTitle: string := "Error"
  const SuccessTitle: string := "Success"
  const ErrorVariant: string := "error"
  const SuccessVariant: string := "success"

  /** One `showToast(title, message, variant)` call. */
  datatype Toast = Toast(title: string, message: string, variant: string)

  function ErrorToast(message: string): Toast {
    Toast(ErrorTitle, message, ErrorVariant)
  }

  function SuccessToast(message: string): Toast {
    Toast(SuccessTitle, message, SuccessVariant)
  }
}

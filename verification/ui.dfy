/** What the pages and modals share: the shape of a rejected request as
    they inspect it, the fallback message for anything that is not an
    axios error, and the observable effects of a modal's handlers. */
module Ui {
  import opened Base
  import Seqs

  /** `error.response?.data` of an axios error: absent (no response, or
      `null`), a JSON object (its entries in order, each value as a
      template literal renders it), or a scalar such as a string. */
  datatype ErrorBody = NoBody | ObjectBody(entries: seq<(string, string)>) | ScalarBody(text: string)

  /** A rejection as the handlers see it: an `AxiosError` with its body and
      `message`, or anything else that was thrown. */
  datatype ClientError = AxiosError(body: ErrorBody, message: string) | OtherError

  const UnexpectedError: string := "Beklenmeyen bir hata oluştu"

  /** `error.response?.data?.detail`. */
  function Detail(body: ErrorBody): Option<string> {
    match body
    case ObjectBody(entries) =>
      (match Seqs.Find(entries, (e: (string, string)) => e.0 == "detail")
       case Some(e) => Some(e.1)
       case None => None)
    case _ => None
  }

  /** `error.response?.data?.detail || error.message`. */
  function DetailOrMessage(body: ErrorBody, message: string): string {
    OrElse(Detail(body), message)
  }

  /** The outcome of the caller's `onSave` promise. */
  datatype SaveResult = Saved | SaveRejected(error: ClientError)

  /** The observable effects of a modal, in the order they happen: the
      `loading` flag, the call to `onSave` with its argument, the call to
      `onClose`, toasts, and the vehicle list fetch. */
  datatype Effect<F> =
    | SetLoading(on: bool)
    | Save(data: F)
    | Close
    | ToastSuccess(text: string)
    | ToastError(text: string)
    | FetchVehicles

  /** What a modal does once `onSave` has settled: close, or a toast. */
  predicate IsOutcome<F>(e: Effect<F>) {
    e.Close? || e.ToastSuccess? || e.ToastError?
  }
}

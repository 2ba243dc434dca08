/** What a view does besides changing its own state: navigate, show a notification, or issue a
    call to the data layer. A handler's effects are returned as a trace, in order. */
module Ui {
  import opened Api

  /** A call a view makes into the data layer. */
  datatype ApiCall =
    | FetchUserAppointments
    | FetchUserProfile
    | CreateCall(draft: NewAppointment)
    | CancelCall(id: string)
    | UpdateProfileCall(patch: ProfilePatch)

  /** One observable effect of a view. */
  datatype Effect =
    | Navigate(path: string)
    | ToastSuccess(message: string)
    | ToastError(message: string)
    | Request(call: ApiCall)

  /** The sign-in route every protected view redirects to. */
  const AuthRoute: string := "/auth"
  /** The appointment list route. */
  const AppointmentsRoute: string := "/appointments"

  /** Whether a trace issues any call to the data layer. */
  predicate IssuesCall(fx: seq<Effect>) {
    exists i :: 0 <= i < |fx| && fx[i].Request?
  }
}

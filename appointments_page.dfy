/** The appointment list: the user's appointments, a status badge and a channel icon per row,
    and a cancel action guarded by a confirmation dialog with a per-row "in flight" marker. */
module AppointmentsPage {
  import opened Wrappers
  import opened Api
  import opened Store
  import opened Ui

  const GreenBadge: string := "text-green-600 bg-green-100"
  const YellowBadge: string := "text-yellow-600 bg-yellow-100"
  const BlueBadge: string := "text-blue-600 bg-blue-100"
  const RedBadge: string := "text-red-600 bg-red-100"
  const GrayBadge: string := "text-gray-600 bg-gray-100"

  /** `getStatusColor`: defined for every text. Each of the four statuses has its own colour,
      none of them gray, and exactly the unrecognised texts are gray. */
  function StatusColor(status: string): (c: string)
    ensures status == Confirmed.Name() ==> c == GreenBadge
    ensures status == Pending.Name() ==> c == YellowBadge
    ensures status == Completed.Name() ==> c == BlueBadge
    ensures status == Cancelled.Name() ==> c == RedBadge
    ensures c == GrayBadge <==> ParseStatus(status).None?
  {
    match ParseStatus(status)
    case Some(Confirmed) => GreenBadge
    case Some(Pending) => YellowBadge
    case Some(Completed) => BlueBadge
    case Some(Cancelled) => RedBadge
    case None => GrayBadge
  }

  /** Different statuses get different colours. */
  lemma StatusColorsDistinct(a: Status, b: Status)
    requires a != b
    ensures StatusColor(a.Name()) != StatusColor(b.Name())
  {
  }

  /** `getTypeIcon`: an icon for each of the four channels, distinct per channel; nothing for
      any other text. */
  function TypeIcon(kind: string): (icon: Option<string>)
    ensures icon.Some? <==> ParseConsultType(kind).Some?
    ensures forall t: ConsultType :: t.Name() != kind || icon == Some(ChannelIcon(t))
  {
    match ParseConsultType(kind)
    case Some(t) => Some(ChannelIcon(t))
    case None => None
  }

  /** The glyph shown for a channel: camera, telephone, speech balloon, hospital. These are the
      emoji whose UTF-8 bytes the source file's four-character icon texts read in Mac Roman. */
  function ChannelIcon(t: ConsultType): string {
    match t
    case Video => "\U{1F4F9}"
    case Voice => "\U{1F4DE}"
    case Chat => "\U{1F4AC}"
    case InPerson => "\U{1F3E5}"
  }

  /** Different channels get different icons. */
  lemma ChannelIconsDistinct(a: ConsultType, b: ConsultType)
    requires a != b
    ensures ChannelIcon(a) != ChannelIcon(b)
  {
  }

  /** The cancel action is offered for exactly the two statuses that are not terminal. */
  predicate CancelOffered(status: string) {
    status == Pending.Name() || status == Confirmed.Name()
  }

  /** The action cell of one row: the cancel dialog, or a disabled button with a label. */
  datatype ActionCell =
    | CancelDialog(confirmDisabled: bool, confirmLabel: string)
    | DisabledButton(caption: string)

  /** What the action column shows for `apt` while `cancelingId` is in flight: the dialog
      exactly when the status is pending or confirmed, its confirm button disabled (and
      reading "Cancelling...") exactly while this row is being cancelled; otherwise a disabled
      button reading "Completed" for completed and "Cancelled" for anything else. */
  function ActionFor(apt: Appointment, cancelingId: Option<string>): (cell: ActionCell)
    ensures cell.CancelDialog? <==> ParseStatus(apt.status) in {Some(Pending), Some(Confirmed)}
    ensures cell.CancelDialog? ==> (cell.confirmDisabled <==> cancelingId == Some(apt.id))
    ensures cell.CancelDialog? ==>
              cell.confirmLabel == if cell.confirmDisabled then "Cancelling..." else "Yes, cancel it"
    ensures cell.DisabledButton? ==>
              cell.caption == if apt.status == Completed.Name() then "Completed" else "Cancelled"
  {
    if CancelOffered(apt.status) then
      var busy := cancelingId == Some(apt.id);
      CancelDialog(busy, if busy then "Cancelling..." else "Yes, cancel it")
    else
      DisabledButton(if apt.status == Completed.Name() then "Completed" else "Cancelled")
  }

  /** Cancellation is one-directional: after the patch, a cancelled row offers no action, and
      its button reads "Cancelled". */
  lemma CancelledRowIsTerminal(rows: seq<Appointment>, id: string, i: int, cancelingId: Option<string>)
    requires 0 <= i < |rows| && rows[i].id == id
    ensures ActionFor(MarkCancelled(rows, id)[i], cancelingId) == DisabledButton("Cancelled")
  {
  }

  const CancelledMessage: string := "Appointment cancelled successfully"
  const CancelFailedMessage: string := "Failed to cancel appointment"
  const LoadFailedMessage: string := "Failed to load your appointments"

  class AppointmentsView {
    var appointments: seq<Appointment>
    var loading: bool
    /** The id of the row whose cancellation is in flight, if any. */
    var cancelingId: Option<string>

    constructor ()
      ensures appointments == [] && loading && cancelingId == None
    {
      appointments := [];
      loading := true;
      cancelingId := None;
    }

    /** What the action column shows for a row in the current state. */
    function Action(apt: Appointment): ActionCell
      reads this
    {
      ActionFor(apt, cancelingId)
    }

    /** The mount effect: without a user, redirect to sign-in and fetch nothing (the view stays
        loading); otherwise fetch, keep the list on success or notify on failure, and stop
        loading either way. */
    method Mount(user: Option<User>, reply: Result<seq<Appointment>>) returns (fx: seq<Effect>)
      modifies this`appointments, this`loading
      ensures user.None? ==> fx == [Navigate(AuthRoute)]
                             && appointments == old(appointments) && loading == old(loading)
      ensures user.Some? && reply.Ok? ==>
                fx == [Request(FetchUserAppointments)] && appointments == reply.value && !loading
      ensures user.Some? && reply.Err? ==>
                fx == [Request(FetchUserAppointments), ToastError(LoadFailedMessage)]
                && appointments == old(appointments) && !loading
    {
      if user.None? {
        return [Navigate(AuthRoute)];
      }
      fx := [Request(FetchUserAppointments)];
      if reply.Ok? {
        appointments := reply.value;
      } else {
        fx := fx + [ToastError(LoadFailedMessage)];
      }
      loading := false;
    }

    /** `handleCancelAppointment` up to its await: mark `id` as in flight, which disables the
        confirm button of that row and of no other, and issue the call. */
    method BeginCancel(id: string) returns (fx: seq<Effect>)
      modifies this`cancelingId
      ensures cancelingId == Some(id)
      ensures forall apt: Appointment :: CancelOffered(apt.status) ==> (Action(apt).confirmDisabled <==> apt.id == id)
      ensures fx == [Request(CancelCall(id))]
    {
      cancelingId := Some(id);
      fx := [Request(CancelCall(id))];
    }

    /** `handleCancelAppointment` after its await: on success patch only the rows with `id` to
        cancelled and notify; on failure leave the list alone and notify the error. The in-flight
        marker is cleared on both paths. */
    method FinishCancel(id: string, outcome: Result<()>) returns (fx: seq<Effect>)
      modifies this`appointments, this`cancelingId
      ensures cancelingId == None
      ensures outcome.Ok? ==> appointments == MarkCancelled(old(appointments), id)
                              && fx == [ToastSuccess(CancelledMessage)]
      ensures outcome.Err? ==> appointments == old(appointments) && fx == [ToastError(CancelFailedMessage)]
    {
      if outcome.Ok? {
        appointments := MarkCancelled(appointments, id);
        fx := [ToastSuccess(CancelledMessage)];
      } else {
        fx := [ToastError(CancelFailedMessage)];
      }
      cancelingId := None;
    }

    /** The whole handler against the store: the store and the list are patched together or
        neither is, and the in-flight marker is clear afterwards. */
    method HandleCancel(id: string, backend: Backend, storeError: Option<string>) returns (fx: seq<Effect>)
      modifies this`appointments, this`cancelingId, backend`appointments
      ensures cancelingId == None
      ensures storeError.None? ==>
                appointments == MarkCancelled(old(appointments), id)
                && backend.appointments == MarkCancelled(old(backend.appointments), id)
                && fx == [Request(CancelCall(id)), ToastSuccess(CancelledMessage)]
      ensures storeError.Some? ==>
                appointments == old(appointments) && backend.appointments == old(backend.appointments)
                && fx == [Request(CancelCall(id)), ToastError(CancelFailedMessage)]
    {
      var sent := BeginCancel(id);
      var outcome := backend.CancelAppointment(id, storeError);
      var shown := FinishCancel(id, outcome);
      fx := sent + shown;
    }
  }
}

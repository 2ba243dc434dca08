/** The data layer: the record shapes exchanged with the hosted store, the status and channel
    enumerations, and the pure reshaping each wrapper applies to what the store returns. */
module Api {
  import opened Wrappers

  /** Lifecycle status of an appointment. */
  datatype Status = Pending | Confirmed | Completed | Cancelled {
    /** The text the store holds for this status. */
    function Name(): string {
      match this
      case Pending => "pending"
      case Confirmed => "confirmed"
      case Completed => "completed"
      case Cancelled => "cancelled"
    }
  }

  /** Consultation channel of an appointment. */
  datatype ConsultType = Video | Voice | Chat | InPerson {
    /** The text the store holds for this channel. */
    function Name(): string {
      match this
      case Video => "video"
      case Voice => "voice"
      case Chat => "chat"
      case InPerson => "in-person"
    }
  }

  /** Reads a status from the store's text: exactly the four names are recognised. */
  function ParseStatus(s: string): (r: Option<Status>)
    ensures r.Some? ==> r.value.Name() == s
    ensures r.None? ==> forall st: Status :: st.Name() != s
  {
    if s == "pending" then Some(Pending)
    else if s == "confirmed" then Some(Confirmed)
    else if s == "completed" then Some(Completed)
    else if s == "cancelled" then Some(Cancelled)
    else None
  }

  /** Reads a channel from the store's text: exactly the four names are recognised. */
  function ParseConsultType(s: string): (r: Option<ConsultType>)
    ensures r.Some? ==> r.value.Name() == s
    ensures r.None? ==> forall t: ConsultType :: t.Name() != s
  {
    if s == "video" then Some(Video)
    else if s == "voice" then Some(Voice)
    else if s == "chat" then Some(Chat)
    else if s == "in-person" then Some(InPerson)
    else None
  }

  /** Naming a status and reading it back gives the same status, so the names are distinct. */
  lemma StatusRoundTrip(st: Status)
    ensures ParseStatus(st.Name()) == Some(st)
  {
  }

  /** Naming a channel and reading it back gives the same channel, so the names are distinct. */
  lemma ConsultTypeRoundTrip(t: ConsultType)
    ensures ParseConsultType(t.Name()) == Some(t)
  {
  }

  /** The authenticated identity the auth provider reports. */
  datatype User = User(id: string, email: string)

  /** A directory entry; read-only from the client's side. */
  datatype Doctor = Doctor(
    id: string,
    name: string,
    specialty: string,
    image: string,
    rating: real,
    experience: string,
    about: Option<string>,
    education: Option<string>)

  /** A wall-clock moment: an abstract day number with an hour and a minute. */
  datatype DateTime = DateTime(day: int, hour: int, minute: int)

  /** An appointment as the views see it. `status` and `kind` are the store's text: the typed
      client narrows them with casts that check nothing at run time. */
  datatype Appointment = Appointment(
    id: string,
    userId: string,
    doctorId: string,
    doctorName: Option<string>,
    doctorSpecialty: Option<string>,
    appointmentDate: DateTime,
    status: string,
    kind: string,
    notes: Option<string>)

  /** The doctor columns joined onto an appointment read through `doctor_id`. */
  datatype DoctorRef = DoctorRef(name: string, specialty: string)

  /** One row of the appointments query: the stored columns and the optional joined doctor. */
  datatype AppointmentRow = AppointmentRow(
    id: string,
    userId: string,
    doctorId: string,
    appointmentDate: DateTime,
    status: string,
    kind: string,
    notes: Option<string>,
    doctors: Option<DoctorRef>)

  /** What a caller passes to create an appointment: an appointment without id and owner. */
  datatype NewAppointment = NewAppointment(
    doctorId: string,
    doctorName: Option<string>,
    doctorSpecialty: Option<string>,
    appointmentDate: DateTime,
    status: string,
    kind: string,
    notes: Option<string>)

  /** A user's profile row. */
  datatype Profile = Profile(
    id: string,
    firstName: Option<string>,
    lastName: Option<string>,
    avatarUrl: Option<string>)

  /** A partial profile update: a present field is written, an absent one is left alone. */
  datatype ProfilePatch = ProfilePatch(
    firstName: Option<string>,
    lastName: Option<string>,
    avatarUrl: Option<string>)

  /** What one query returns: data (possibly null) and an error (possibly null). */
  datatype Response<T> = Response(data: Option<T>, error: Option<string>)

  /** The message `createAppointment` raises when there is no session user. */
  const NotAuthenticated: string := "User not authenticated"

  /** `getDoctors`: a store error is re-raised; otherwise the data, with null read as no doctors. */
  function GetDoctors(response: Response<seq<Doctor>>): (r: Result<seq<Doctor>>)
    ensures r.Err? <==> response.error.Some?
    ensures r.Err? ==> r.error == response.error.value
    ensures r.Ok? && response.data.None? ==> r.value == []
    ensures r.Ok? && response.data.Some? ==> r.value == response.data.value
  {
    match response.error
    case Some(e) => Err(e)
    case None => Ok(response.data.GetOr([]))
  }

  /** The per-row reshaping of `getUserAppointments`: the joined doctor's name and specialty
      become `doctorName` and `doctorSpecialty` (absent without a join); every stored column is
      carried over unchanged. */
  function WithDoctor(row: AppointmentRow): (a: Appointment)
    ensures a.doctorName.Some? <==> row.doctors.Some?
    ensures a.doctorSpecialty.Some? <==> row.doctors.Some?
    ensures row.doctors.Some? ==> a.doctorName.value == row.doctors.value.name
    ensures row.doctors.Some? ==> a.doctorSpecialty.value == row.doctors.value.specialty
    ensures a.id == row.id && a.userId == row.userId && a.doctorId == row.doctorId
    ensures a.appointmentDate == row.appointmentDate && a.status == row.status
    ensures a.kind == row.kind && a.notes == row.notes
  {
    Appointment(
      row.id, row.userId, row.doctorId,
      if row.doctors.Some? then Some(row.doctors.value.name) else None,
      if row.doctors.Some? then Some(row.doctors.value.specialty) else None,
      row.appointmentDate, row.status, row.kind, row.notes)
  }

  /** The list reshaping of `getUserAppointments`: one appointment per row, in row order. */
  function WithDoctors(rows: seq<AppointmentRow>): (r: seq<Appointment>)
    ensures |r| == |rows|
    ensures forall i :: 0 <= i < |rows| ==> r[i] == WithDoctor(rows[i])
  {
    if rows == [] then [] else [WithDoctor(rows[0])] + WithDoctors(rows[1..])
  }

  /** `getUserAppointments`: a store error is re-raised; otherwise every row (null read as no
      rows) is reshaped, one output per row, in the same order. */
  function GetUserAppointments(response: Response<seq<AppointmentRow>>): (r: Result<seq<Appointment>>)
    ensures r.Err? <==> response.error.Some?
    ensures r.Err? ==> r.error == response.error.value
    ensures r.Ok? ==> |r.value| == |response.data.GetOr([])|
    ensures r.Ok? ==> forall i :: 0 <= i < |r.value| ==>
              r.value[i] == WithDoctor(response.data.GetOr([])[i])
  {
    match response.error
    case Some(e) => Err(e)
    case None => Ok(WithDoctors(response.data.GetOr([])))
  }

  /** The row `createAppointment` inserts: the caller's fields, then `user_id` from the session
      (the caller's type has no owner field, so the session's identity is the only one), and the
      identity the store assigns. */
  function OwnerStamped(draft: NewAppointment, id: string, ownerId: string): (a: Appointment)
    ensures a.userId == ownerId && a.id == id
    ensures a.doctorId == draft.doctorId && a.doctorName == draft.doctorName
    ensures a.doctorSpecialty == draft.doctorSpecialty
    ensures a.appointmentDate == draft.appointmentDate
    ensures a.status == draft.status && a.kind == draft.kind && a.notes == draft.notes
  {
    Appointment(id, ownerId, draft.doctorId, draft.doctorName, draft.doctorSpecialty,
                draft.appointmentDate, draft.status, draft.kind, draft.notes)
  }

  /** Sets `status` to cancelled on every appointment whose id is `id`: the store's
      `update({status: "cancelled"}).eq("id", id)` and the view's optimistic patch alike.
      Length and order are kept, only the status field of matching rows changes, and every
      other row is left exactly as it was. */
  function MarkCancelled(rows: seq<Appointment>, id: string): (r: seq<Appointment>)
    ensures |r| == |rows|
    ensures forall i :: 0 <= i < |rows| ==> r[i] == rows[i].(status := r[i].status)
    ensures forall i :: 0 <= i < |rows| && rows[i].id == id ==> r[i].status == Cancelled.Name()
    ensures forall i :: 0 <= i < |rows| && rows[i].id != id ==> r[i] == rows[i]
  {
    if rows == [] then []
    else
      var head := if rows[0].id == id then rows[0].(status := Cancelled.Name()) else rows[0];
      [head] + MarkCancelled(rows[1..], id)
  }

  /** Cancelling twice is cancelling once. */
  lemma {:induction false} MarkCancelledIdempotent(rows: seq<Appointment>, id: string)
    ensures MarkCancelled(MarkCancelled(rows, id), id) == MarkCancelled(rows, id)
  {
    var once := MarkCancelled(rows, id);
    var twice := MarkCancelled(once, id);
    forall i | 0 <= i < |rows|
      ensures twice[i] == once[i]
    {
      if rows[i].id == id {
        assert once[i].id == id;
      }
    }
  }

  /** The store's `update(patch)` on a profile: written fields replaced, the rest kept. */
  function ApplyProfilePatch(p: Profile, patch: ProfilePatch): (r: Profile)
    ensures r.id == p.id
    ensures r.firstName == (if patch.firstName.Some? then patch.firstName else p.firstName)
    ensures r.lastName == (if patch.lastName.Some? then patch.lastName else p.lastName)
    ensures r.avatarUrl == (if patch.avatarUrl.Some? then patch.avatarUrl else p.avatarUrl)
  {
    Profile(
      p.id,
      if patch.firstName.Some? then patch.firstName else p.firstName,
      if patch.lastName.Some? then patch.lastName else p.lastName,
      if patch.avatarUrl.Some? then patch.avatarUrl else p.avatarUrl)
  }
}

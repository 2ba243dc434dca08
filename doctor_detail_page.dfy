/** A doctor's page and its booking dialog: channel, one of the next seven days, one of the
    fixed time slots, then a guarded submission that creates a pending appointment. */
module DoctorDetailPage {
  import opened Wrappers
  import opened Api
  import opened Store
  import opened Ui

  predicate IsDigit(c: char) {
    '0' <= c <= '9'
  }

  function DigitValue(c: char): int
    requires IsDigit(c)
  {
    c as int - '0' as int
  }

  function DigitChar(d: int): char
    requires 0 <= d <= 9
  {
    ('0' as int + d) as char
  }

  /** Text of the shape "HH:MM", two digits on each side of a colon. */
  predicate IsClockText(t: string) {
    |t| == 5 && IsDigit(t[0]) && IsDigit(t[1]) && t[2] == ':' && IsDigit(t[3]) && IsDigit(t[4])
  }

  /** `time.split(':').map(Number)` on "HH:MM": the hours and the minutes as numbers. */
  function SplitTime(t: string): (hm: (int, int))
    requires IsClockText(t)
    ensures 0 <= hm.0 <= 99 && 0 <= hm.1 <= 99
  {
    (10 * DigitValue(t[0]) + DigitValue(t[1]), 10 * DigitValue(t[3]) + DigitValue(t[4]))
  }

  /** The text "HH:MM" for an hour and a minute, each written with two digits; splitting it
      gives the hour and the minute back. */
  function ClockText(h: int, m: int): (t: string)
    requires 0 <= h <= 99 && 0 <= m <= 99
    ensures IsClockText(t) && SplitTime(t) == (h, m)
  {
    [DigitChar(h / 10), DigitChar(h % 10), ':', DigitChar(m / 10), DigitChar(m % 10)]
  }

  /** The other direction: every "HH:MM" text is the clock text of the numbers it splits into,
      so `SplitTime` reads exactly the two two-digit numbers of the text. */
  lemma ClockTextOfSplit(t: string)
    requires IsClockText(t)
    ensures ClockText(SplitTime(t).0, SplitTime(t).1) == t
  {
    var (h, m) := SplitTime(t);
    assert h / 10 == DigitValue(t[0]) && h % 10 == DigitValue(t[1]);
    assert m / 10 == DigitValue(t[3]) && m % 10 == DigitValue(t[4]);
  }

  /** The hours on offer: the working day without the noon hour. */
  const SlotHours: seq<int> := [9, 10, 11, 13, 14, 15, 16]

  /** The time options of the booking dialog. */
  const TimeSlots: seq<string> := ["09:00", "10:00", "11:00", "13:00", "14:00", "15:00", "16:00"]

  /** The slot list is the hours 9 to 16 without 12, ascending, each written "HH:00": splitting
      slot i gives hour `SlotHours[i]` and minute 0. */
  lemma TimeSlotsAreHours()
    ensures |TimeSlots| == |SlotHours| == 7
    ensures forall i :: 0 <= i < 7 ==> TimeSlots[i] == ClockText(SlotHours[i], 0)
    ensures forall i :: 0 <= i < 7 ==> IsClockText(TimeSlots[i]) && SplitTime(TimeSlots[i]) == (SlotHours[i], 0)
    ensures forall i :: 0 <= i < 7 ==> 9 <= SlotHours[i] <= 16 && SlotHours[i] != 12
    ensures forall i, j :: 0 <= i < j < 7 ==> SlotHours[i] < SlotHours[j]
  {
    assert TimeSlots[0] == ClockText(9, 0);
    assert TimeSlots[1] == ClockText(10, 0);
    assert TimeSlots[2] == ClockText(11, 0);
    assert TimeSlots[3] == ClockText(13, 0);
    assert TimeSlots[4] == ClockText(14, 0);
    assert TimeSlots[5] == ClockText(15, 0);
    assert TimeSlots[6] == ClockText(16, 0);
  }

  /** `renderDateOptions`: today and the six days after it, in order. */
  method DateOptions(today: int) returns (dates: seq<int>)
    ensures |dates| == 7
    ensures forall i :: 0 <= i < 7 ==> dates[i] == today + i
  {
    dates := [];
    var i := 0;
    while i < 7
      invariant 0 <= i <= 7 && |dates| == i
      invariant forall k :: 0 <= k < i ==> dates[k] == today + k
    {
      dates := dates + [today + i];
      i := i + 1;
    }
  }

  /** The appointment `handleBook` asks for: this doctor, the chosen channel, the chosen day at
      the chosen slot's hour and minute, status pending, and nothing else. */
  function BookingDraft(doctorId: string, kind: ConsultType, day: int, time: string): (d: NewAppointment)
    requires IsClockText(time)
    ensures ParseStatus(d.status) == Some(Pending)
    ensures ParseConsultType(d.kind) == Some(kind)
    ensures d.doctorId == doctorId
    ensures d.appointmentDate == DateTime(day, SplitTime(time).0, SplitTime(time).1)
    ensures d.doctorName.None? && d.doctorSpecialty.None? && d.notes.None?
  {
    var (hours, minutes) := SplitTime(time);
    NewAppointment(doctorId, None, None, DateTime(day, hours, minutes), Pending.Name(), kind.Name(), None)
  }

  const LoginFirstMessage: string := "Please log in to book an appointment"
  const PickDateTimeMessage: string := "Please select a date and time for your appointment"
  const BookedMessage: string := "Appointment requested successfully"
  const BookFailedMessage: string := "Failed to book appointment. Please try again."

  class BookingView {
    /** The doctor id from the route. */
    const doctorId: string
    var bookingType: ConsultType
    var bookingDate: Option<int>
    var bookingTime: string
    var isBookingOpen: bool
    var isSubmitting: bool

    /** A chosen time is always one of the offered slots. */
    ghost predicate Valid()
      reads this
    {
      bookingTime == "" || bookingTime in TimeSlots
    }

    /** Defaults: video, no date, no time, dialog closed, not submitting. */
    constructor (doctorId: string)
      ensures Valid()
      ensures this.doctorId == doctorId
      ensures bookingType == Video && bookingDate == None && bookingTime == ""
      ensures !isBookingOpen && !isSubmitting
    {
      this.doctorId := doctorId;
      bookingType := Video;
      bookingDate := None;
      bookingTime := "";
      isBookingOpen := false;
      isSubmitting := false;
    }

    method SelectType(t: ConsultType)
      requires Valid()
      modifies this`bookingType
      ensures Valid() && bookingType == t
    {
      bookingType := t;
    }

    /** A date button records its day. The buttons offer today and the next six days, but that
        window is deliberately not kept in the view's state: the clock moves between rendering
        the buttons and submitting, so the recorded day is not re-checked against a later today. */
    method SelectDate(day: int)
      requires Valid()
      modifies this`bookingDate
      ensures Valid() && bookingDate == Some(day)
    {
      bookingDate := Some(day);
    }

    /** Only the offered slots can be picked. */
    method SelectTime(t: string)
      requires Valid() && t in TimeSlots
      modifies this`bookingTime
      ensures Valid() && bookingTime == t
    {
      bookingTime := t;
    }

    method SetOpen(open: bool)
      requires Valid()
      modifies this`isBookingOpen
      ensures Valid() && isBookingOpen == open
    {
      isBookingOpen := open;
    }

    /** The Book button is enabled exactly when nothing is being submitted and both a date and
        a time are chosen. */
    predicate BookEnabled()
      reads this
    {
      !isSubmitting && bookingDate.Some? && bookingTime != ""
    }

    /** `handleBook` up to its await. The session check comes first: without a user, notify and
        redirect to sign-in. Then, without a date or a time, notify. Neither path sets the
        submitting flag or issues a call. Otherwise set the flag and ask for the draft. */
    method BeginBook(user: Option<User>) returns (draft: Option<NewAppointment>, fx: seq<Effect>)
      requires Valid()
      modifies this`isSubmitting
      ensures Valid()
      ensures user.None? ==>
                draft.None? && fx == [ToastError(LoginFirstMessage), Navigate(AuthRoute)]
                && isSubmitting == old(isSubmitting)
      ensures user.Some? && (bookingDate.None? || bookingTime == "") ==>
                draft.None? && fx == [ToastError(PickDateTimeMessage)] && isSubmitting == old(isSubmitting)
      ensures draft.None? ==> !IssuesCall(fx)
      ensures user.Some? && bookingDate.Some? && bookingTime != "" ==>
                IsClockText(bookingTime) && isSubmitting
                && draft == Some(BookingDraft(doctorId, bookingType, bookingDate.value, bookingTime))
                && fx == [Request(CreateCall(draft.value))]
      ensures user.Some? && old(BookEnabled()) ==> draft.Some?
    {
      if user.None? {
        return None, [ToastError(LoginFirstMessage), Navigate(AuthRoute)];
      }
      if bookingDate.None? || bookingTime == "" {
        return None, [ToastError(PickDateTimeMessage)];
      }
      TimeSlotsAreHours();
      isSubmitting := true;
      var d := BookingDraft(doctorId, bookingType, bookingDate.value, bookingTime);
      draft, fx := Some(d), [Request(CreateCall(d))];
    }

    /** `handleBook` after its await: on success close the dialog and go to the appointment
        list; on failure notify and leave the dialog as it was. The selections are untouched and
        the submitting flag is cleared on both paths. */
    method FinishBook(result: Result<Appointment>) returns (fx: seq<Effect>)
      requires Valid()
      modifies this`isSubmitting, this`isBookingOpen
      ensures Valid() && !isSubmitting
      ensures result.Ok? ==> !isBookingOpen && fx == [ToastSuccess(BookedMessage), Navigate(AppointmentsRoute)]
      ensures result.Err? ==> isBookingOpen == old(isBookingOpen) && fx == [ToastError(BookFailedMessage)]
    {
      if result.Ok? {
        isBookingOpen := false;
        fx := [ToastSuccess(BookedMessage), Navigate(AppointmentsRoute)];
      } else {
        fx := [ToastError(BookFailedMessage)];
      }
      isSubmitting := false;
    }

    /** The whole handler against the store. A guard that fails changes nothing anywhere. A
        submission inserts exactly one appointment when the store's own session check and the
        insert succeed, and none otherwise; the inserted appointment is pending, of the chosen
        channel, for this doctor and owned by the session user. */
    method HandleBook(user: Option<User>, backend: Backend, newId: string, storeError: Option<string>)
      returns (fx: seq<Effect>)
      requires Valid()
      modifies this`isSubmitting, this`isBookingOpen, backend`appointments
      ensures Valid()
      ensures user.None? ==>
                fx == [ToastError(LoginFirstMessage), Navigate(AuthRoute)]
                && backend.appointments == old(backend.appointments)
                && isSubmitting == old(isSubmitting) && isBookingOpen == old(isBookingOpen)
      ensures user.Some? && (bookingDate.None? || bookingTime == "") ==>
                fx == [ToastError(PickDateTimeMessage)]
                && backend.appointments == old(backend.appointments)
                && isSubmitting == old(isSubmitting) && isBookingOpen == old(isBookingOpen)
      ensures user.Some? && bookingDate.Some? && bookingTime != "" ==> !isSubmitting
      ensures user.Some? && bookingDate.Some? && bookingTime != "" && backend.session.Some? && storeError.None? ==>
                IsClockText(bookingTime)
                && backend.appointments == old(backend.appointments)
                     + [OwnerStamped(BookingDraft(doctorId, bookingType, bookingDate.value, bookingTime),
                                     newId, backend.session.value.id)]
                && !isBookingOpen
                && fx == [Request(CreateCall(BookingDraft(doctorId, bookingType, bookingDate.value, bookingTime))),
                          ToastSuccess(BookedMessage), Navigate(AppointmentsRoute)]
      ensures user.Some? && bookingDate.Some? && bookingTime != "" && (backend.session.None? || storeError.Some?) ==>
                IsClockText(bookingTime)
                && backend.appointments == old(backend.appointments) && isBookingOpen == old(isBookingOpen)
                && fx == [Request(CreateCall(BookingDraft(doctorId, bookingType, bookingDate.value, bookingTime))),
                          ToastError(BookFailedMessage)]
      ensures |backend.appointments| > |old(backend.appointments)| ==>
                |backend.appointments| == |old(backend.appointments)| + 1
                && var a := backend.appointments[|old(backend.appointments)|];
                   ParseStatus(a.status) == Some(Pending) && ParseConsultType(a.kind) == Some(bookingType)
                   && a.doctorId == doctorId && backend.session.Some? && a.userId == backend.session.value.id
    {
      var draft, sent := BeginBook(user);
      if draft.None? {
        return sent;
      }
      var result := backend.CreateAppointment(draft.value, newId, storeError);
      var shown := FinishBook(result);
      fx := sent + shown;
    }
  }
}

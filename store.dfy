/** The hosted store as far as the data layer changes it: the appointments table and the
    session user the auth client reports. Whether a store call fails is not something the model
    can decide, so each mutating call takes the store's answer, `storeError`, as a parameter. */
module Store {
  import opened Wrappers
  import opened Api

  class Backend {
    /** The appointments table, in insertion order. */
    var appointments: seq<Appointment>
    /** The user `auth.getUser()` reports; read-only for the data layer. */
    var session: Option<User>

    constructor (session: Option<User>, appointments: seq<Appointment>)
      ensures this.session == session && this.appointments == appointments
    {
      this.session := session;
      this.appointments := appointments;
    }

    /** `createAppointment`: fetch the session user, refuse without one, else insert the draft
        stamped with that user's id and the store-assigned `newId`, and return the new row. */
    method CreateAppointment(draft: NewAppointment, newId: string, storeError: Option<string>)
      returns (r: Result<Appointment>)
      modifies this`appointments
      ensures session.None? ==> r == Err(NotAuthenticated) && appointments == old(appointments)
      ensures session.Some? && storeError.Some? ==>
                r == Err(storeError.value) && appointments == old(appointments)
      ensures session.Some? && storeError.None? ==>
                r == Ok(OwnerStamped(draft, newId, session.value.id))
                && appointments == old(appointments) + [r.value]
      ensures r.Ok? ==> session.Some? && r.value.userId == session.value.id
    {
      if session.None? {
        return Err(NotAuthenticated);
      }
      var user := session.value;
      if storeError.Some? {
        return Err(storeError.value);
      }
      var row := OwnerStamped(draft, newId, user.id);
      appointments := appointments + [row];
      r := Ok(row);
    }

    /** `cancelAppointment`: write status "cancelled" on the rows with this id (none matching
        is not an error) and nothing else; a store error is re-raised and changes nothing. */
    method CancelAppointment(id: string, storeError: Option<string>) returns (r: Result<()>)
      modifies this`appointments
      ensures storeError.Some? ==> r == Err(storeError.value) && appointments == old(appointments)
      ensures storeError.None? ==> r == Ok(()) && appointments == MarkCancelled(old(appointments), id)
    {
      if storeError.Some? {
        return Err(storeError.value);
      }
      appointments := MarkCancelled(appointments, id);
      r := Ok(());
    }
  }
}

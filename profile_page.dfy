/** The profile editor: two editable name fields seeded from the stored profile, a save that
    sends exactly those two fields, and an account-deletion button that is a stub. */
module ProfilePage {
  import opened Wrappers
  import opened Api
  import opened Ui

  /** The update the editor sends: first and last name, and no other field. */
  function NamePatch(firstName: string, lastName: string): (p: ProfilePatch)
    ensures p.firstName == Some(firstName) && p.lastName == Some(lastName)
    ensures p.avatarUrl.None?
  {
    ProfilePatch(Some(firstName), Some(lastName), None)
  }

  /** Applied by the store to any profile, the editor's update writes the two names and keeps
      the id and the avatar. */
  lemma NamePatchWritesOnlyNames(p: Profile, firstName: string, lastName: string)
    ensures ApplyProfilePatch(p, NamePatch(firstName, lastName))
            == p.(firstName := Some(firstName), lastName := Some(lastName))
  {
  }

  const LoadFailedMessage: string := "Failed to load profile"
  const SavedMessage: string := "Profile updated successfully"
  const SaveFailedMessage: string := "Failed to update profile"
  const NotImplementedMessage: string := "This feature is not implemented yet"

  class ProfileView {
    var profile: Option<Profile>
    var loading: bool
    var saving: bool
    var firstName: string
    var lastName: string

    /** No profile yet, loading, not saving, both names empty. */
    constructor ()
      ensures profile.None? && loading && !saving && firstName == "" && lastName == ""
    {
      profile := None;
      loading := true;
      saving := false;
      firstName := "";
      lastName := "";
    }

    /** The mount effect: without a user, redirect to sign-in and fetch nothing. Otherwise fetch;
        on success keep the profile and seed each name field from it, "" where the field is
        absent; on failure notify. Loading ends either way. */
    method Mount(user: Option<User>, reply: Result<Profile>) returns (fx: seq<Effect>)
      modifies this`profile, this`loading, this`firstName, this`lastName
      ensures user.None? ==>
                fx == [Navigate(AuthRoute)] && profile == old(profile) && loading == old(loading)
                && firstName == old(firstName) && lastName == old(lastName)
      ensures user.Some? && reply.Ok? ==>
                fx == [Request(FetchUserProfile)] && profile == Some(reply.value) && !loading
                && firstName == reply.value.firstName.GetOr("") && lastName == reply.value.lastName.GetOr("")
      ensures user.Some? && reply.Err? ==>
                fx == [Request(FetchUserProfile), ToastError(LoadFailedMessage)] && !loading
                && profile == old(profile) && firstName == old(firstName) && lastName == old(lastName)
    {
      if user.None? {
        return [Navigate(AuthRoute)];
      }
      fx := [Request(FetchUserProfile)];
      match reply {
        case Ok(data) =>
          profile := Some(data);
          firstName := data.firstName.GetOr("");
          lastName := data.lastName.GetOr("");
        case Err(_) =>
          fx := fx + [ToastError(LoadFailedMessage)];
      }
      loading := false;
    }

    method SetFirstName(name: string)
      modifies this`firstName
      ensures firstName == name
    {
      firstName := name;
    }

    method SetLastName(name: string)
      modifies this`lastName
      ensures lastName == name
    {
      lastName := name;
    }

    /** `handleUpdateProfile` up to its await: set `saving` and send the two name fields. */
    method BeginUpdate() returns (fx: seq<Effect>)
      modifies this`saving
      ensures saving
      ensures fx == [Request(UpdateProfileCall(NamePatch(firstName, lastName)))]
    {
      saving := true;
      fx := [Request(UpdateProfileCall(NamePatch(firstName, lastName)))];
    }

    /** `handleUpdateProfile` after its await: on success the local profile becomes the
        store's returned record; on failure it is kept. `saving` is cleared on both paths and the
        name fields are not touched. */
    method FinishUpdate(reply: Result<Profile>) returns (fx: seq<Effect>)
      modifies this`profile, this`saving
      ensures !saving
      ensures reply.Ok? ==> profile == Some(reply.value) && fx == [ToastSuccess(SavedMessage)]
      ensures reply.Err? ==> profile == old(profile) && fx == [ToastError(SaveFailedMessage)]
    {
      if reply.Ok? {
        profile := Some(reply.value);
        fx := [ToastSuccess(SavedMessage)];
      } else {
        fx := [ToastError(SaveFailedMessage)];
      }
      saving := false;
    }

    /** The whole save: one update carrying the current names, then the reply applied. */
    method HandleUpdate(reply: Result<Profile>) returns (fx: seq<Effect>)
      modifies this`profile, this`saving
      ensures !saving
      ensures |fx| == 2 && fx[0] == Request(UpdateProfileCall(NamePatch(firstName, lastName)))
      ensures reply.Ok? ==> profile == Some(reply.value) && fx[1] == ToastSuccess(SavedMessage)
      ensures reply.Err? ==> profile == old(profile) && fx[1] == ToastError(SaveFailedMessage)
    {
      var sent := BeginUpdate();
      var shown := FinishUpdate(reply);
      fx := sent + shown;
    }

    /** The delete-account button: always reports that the feature is missing, and changes
        nothing (it modifies no state and issues no call). */
    method DeleteAccount() returns (fx: seq<Effect>)
      ensures fx == [ToastError(NotImplementedMessage)] && !IssuesCall(fx)
    {
      fx := [ToastError(NotImplementedMessage)];
    }
  }
}

/** The settings page (src/pages/Settings.tsx): the password change with its two
    checks and the field reset, the profile name save, the stored notification and
    theme preferences with their defaults, and when the two buttons are disabled.
    The identity service's and profile table's answers are inputs: whether the call
    fails. */
module Settings {
  import opened Wrappers
  import opened MockData

  datatype PasswordResult =
    | Mismatch        // "Passwords do not match"
    | TooShort        // "Password must be at least 6 characters"
    | PasswordUpdated // "Password updated successfully"
    | UpdateFailed    // "Failed to update password"

  datatype ProfileResult = NoUser | ProfileUpdated | ProfileFailed

  /** The preferences record as read back from storage: either field may be missing. */
  datatype SavedPreferences = SavedPreferences(emailNotifications: Option<bool>, darkMode: Option<bool>)

  /** The shortest password the page sends on. */
  const MinPasswordLength := 6

  /** A pair of entries the page sends to the identity service: they agree and are long enough. */
  predicate PasswordAcceptable(password: string, confirmPassword: string) {
    password == confirmPassword && |password| >= MinPasswordLength
  }

  /** The preferences the page shows for a stored record: missing fields default to
      notifications on and dark mode off, and a stored `false` is kept. */
  function PreferencesFrom(saved: SavedPreferences): (r: (bool, bool))
    ensures r.0 == (saved.emailNotifications != Some(false))
    ensures r.1 == (saved.darkMode == Some(true))
  {
    (saved.emailNotifications.GetOr(true), saved.darkMode.GetOr(false))
  }

  /** The record `savePreferences` stores. */
  function ToSaved(emailNotifications: bool, darkMode: bool): SavedPreferences {
    SavedPreferences(Some(emailNotifications), Some(darkMode))
  }

  /** Saved preferences read back as they were saved. */
  lemma PreferencesRoundTrip(emailNotifications: bool, darkMode: bool)
    ensures PreferencesFrom(ToSaved(emailNotifications, darkMode)) == (emailNotifications, darkMode)
  {
  }

  /** The `profiles` table after a successful write of `name` to row `id`. A filter
      that matches no row is not an error for the store: the table is left as it was. */
  function WriteName(names: map<string, string>, id: string, name: string): (r: map<string, string>)
    ensures r.Keys == names.Keys
    ensures forall k :: k in r ==> r[k] == if k == id then name else names[k]
  {
    if id in names then names[id := name] else names
  }

  /** The `profiles` table, as the name column keyed by user id, and the ids whose
      writes the backend rejects. */
  class ProfileStore {
    var names: map<string, string>
    var failing: set<string>

    constructor (names0: map<string, string>, failing0: set<string>)
      ensures names == names0 && failing == failing0
    {
      names := names0;
      failing := failing0;
    }

    /** `update({ name }).eq('id', id)`; `ok` is false when the store returns an error. */
    method UpdateName(id: string, name: string) returns (ok: bool)
      modifies this`names
      ensures ok <==> id !in failing
      ensures names == if ok then WriteName(old(names), id, name) else old(names)
    {
      ok := id !in failing;
      if ok {
        names := WriteName(names, id, name);
      }
    }
  }

  class SettingsPage {
    const profiles: ProfileStore
    var name: string
    var email: string
    var password: string
    var confirmPassword: string
    var isLoading: bool
    var emailNotifications: bool
    var darkMode: bool

    constructor (profiles: ProfileStore)
      ensures this.profiles == profiles
      ensures name == "" && email == "" && password == "" && confirmPassword == ""
      ensures !isLoading && emailNotifications && !darkMode
    {
      this.profiles := profiles;
      name := "";
      email := "";
      password := "";
      confirmPassword := "";
      isLoading := false;
      emailNotifications := true;
      darkMode := false;
    }

    /** The load effect: the signed-in agent's e-mail, the profile's name when there is
        a profile, and the stored preferences when a record is stored. */
    method Load(currentUser: Option<Agent>, profileName: Option<string>, saved: Option<SavedPreferences>)
      modifies this`email, this`name, this`emailNotifications, this`darkMode
      ensures email == if currentUser.Some? then currentUser.value.email else old(email)
      ensures name == if profileName.Some? then profileName.value else old(name)
      ensures (emailNotifications, darkMode) ==
              if saved.Some? then PreferencesFrom(saved.value) else old((emailNotifications, darkMode))
    {
      if currentUser.Some? {
        email := currentUser.value.email;
      }
      if profileName.Some? {
        name := profileName.value;
      }
      if saved.Some? {
        var prefs := PreferencesFrom(saved.value);
        emailNotifications := prefs.0;
        darkMode := prefs.1;
      }
    }

    /** `savePreferences`: the record written to storage. */
    method SavePreferences() returns (stored: SavedPreferences)
      ensures stored == ToSaved(emailNotifications, darkMode)
      ensures PreferencesFrom(stored) == (emailNotifications, darkMode)
    {
      stored := ToSaved(emailNotifications, darkMode);
      PreferencesRoundTrip(emailNotifications, darkMode);
    }

    /** "Save Profile" is disabled while a call runs or when the name is empty. */
    predicate SaveProfileDisabled()
      reads this
      ensures !SaveProfileDisabled() <==> !isLoading && name != ""
    {
      isLoading || name == ""
    }

    /** "Update Password" is disabled while a call runs or when either entry is empty.
        Once no call runs, any pair of non-empty entries enables it: an acceptable
        pair, and also a mismatched or too short one, which the handler then turns down. */
    predicate UpdatePasswordDisabled()
      reads this
      ensures !isLoading && PasswordAcceptable(password, confirmPassword) ==> !UpdatePasswordDisabled()
      ensures !isLoading && password != confirmPassword && password != "" && confirmPassword != "" ==>
                !UpdatePasswordDisabled()
      ensures isLoading ==> UpdatePasswordDisabled()
      ensures password == "" || confirmPassword == "" ==> UpdatePasswordDisabled()
      ensures !isLoading && password != "" && confirmPassword != "" ==> !UpdatePasswordDisabled()
    {
      isLoading || password == "" || confirmPassword == ""
    }

    /** `updateProfile`: nothing without a signed-in agent; otherwise the page's name is
        written to that agent's profile row, and loading is off afterwards. */
    method UpdateProfile(currentUser: Option<Agent>) returns (result: ProfileResult)
      modifies this`isLoading, profiles`names
      ensures currentUser.None? ==>
        result == NoUser && isLoading == old(isLoading) && profiles.names == old(profiles.names)
      ensures currentUser.Some? ==>
        && result == (if currentUser.value.id in profiles.failing then ProfileFailed else ProfileUpdated)
        && profiles.names == (if result == ProfileUpdated
                              then WriteName(old(profiles.names), currentUser.value.id, name)
                              else old(profiles.names))
        && !isLoading
    {
      if currentUser.None? {
        return NoUser;
      }
      isLoading := true;
      var ok := profiles.UpdateName(currentUser.value.id, name);
      result := if ok then ProfileUpdated else ProfileFailed;
      isLoading := false;
    }

    /** `updatePassword`: a mismatch is reported before the length; either rejection
        makes no call and changes nothing. An accepted pair goes to the identity
        service; the two entries are cleared only when it succeeds, and loading is off
        afterwards. */
    method UpdatePassword(backendFails: bool) returns (result: PasswordResult)
      modifies this`password, this`confirmPassword, this`isLoading
      ensures result == Mismatch <==> old(password) != old(confirmPassword)
      ensures result == TooShort <==>
                old(password) == old(confirmPassword) && |old(password)| < MinPasswordLength
      ensures result in {Mismatch, TooShort} ==>
                password == old(password) && confirmPassword == old(confirmPassword) && isLoading == old(isLoading)
      ensures PasswordAcceptable(old(password), old(confirmPassword)) ==>
                result == (if backendFails then UpdateFailed else PasswordUpdated) && !isLoading
      ensures result == UpdateFailed ==> password == old(password) && confirmPassword == old(confirmPassword)
      ensures result == PasswordUpdated ==> password == "" && confirmPassword == "" && UpdatePasswordDisabled()
    {
      if password != confirmPassword {
        return Mismatch;
      }
      if |password| < MinPasswordLength {
        return TooShort;
      }
      isLoading := true;
      if backendFails {
        result := UpdateFailed;
      } else {
        result := PasswordUpdated;
        password := "";
        confirmPassword := "";
      }
      isLoading := false;
    }
  }
}

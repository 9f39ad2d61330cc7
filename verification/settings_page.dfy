/**
 * The account settings page of `app/dashboard/parametres/page.tsx`: the
 * profile form and the password form as name-to-value objects that the input
 * handlers update one field at a time, the checks run before a password change
 * and before a photo upload, the cancel handlers, the vehicle status badge and
 * the avatar choice.
 */
module SettingsPage {
  import opened Wrappers
  import opened Text
  import opened Interfaces
  import FormDataModel

  /** The largest photo accepted: 5 MB. */
  const MaxImageSize: nat := 5 * 1024 * 1024

  /** The shortest new password accepted. */
  const MinPasswordLength: nat := 6

  /** The verdict of `handleSavePassword`'s checks, in the order the code runs them. */
  datatype PasswordCheck =
    | NoUser
    | Mismatch
    | TooShort
    | SendPassword(userId: string, password: string)

  /** The checks before a password change; the current password is not among the inputs. */
  function CheckPassword(user: Option<User>, newPassword: string, confirmPassword: string): (r: PasswordCheck)
    ensures r.NoUser? <==> user.None?
    ensures user.Some? && newPassword != confirmPassword ==> r == Mismatch
    ensures r.TooShort? <==> user.Some? && newPassword == confirmPassword && Utf16Length(newPassword) < MinPasswordLength
    ensures r.SendPassword? <==> user.Some? && newPassword == confirmPassword && Utf16Length(newPassword) >= MinPasswordLength
    ensures r.SendPassword? ==> r.userId == user.value.id && r.password == newPassword
  {
    if user.None? then NoUser
    else if newPassword != confirmPassword then Mismatch
    else if Utf16Length(newPassword) < MinPasswordLength then TooShort
    else SendPassword(user.value.id, newPassword)
  }

  /** A short password that does not match its confirmation is reported as a mismatch, not as too short. */
  lemma MismatchReportedFirst(user: User, newPassword: string, confirmPassword: string)
    requires newPassword != confirmPassword && Utf16Length(newPassword) < MinPasswordLength
    ensures CheckPassword(Some(user), newPassword, confirmPassword) == Mismatch
  {
  }

  /** The length rule counts UTF-16 code units: three characters above U+FFFF make six, enough to be sent. */
  lemma AstralCharactersCountTwice(user: User)
    ensures CheckPassword(Some(user), "\U{1F600}\U{1F600}\U{1F600}", "\U{1F600}\U{1F600}\U{1F600}").SendPassword?
  {
    var p := "\U{1F600}\U{1F600}\U{1F600}";
    assert p[1..][1..][1..] == [];
    assert Utf16Length(p) == 6;
  }

  /** The verdict of `handleImageUpload`'s checks. */
  datatype UploadCheck =
    | NothingToUpload
    | NotAnImage
    | TooLarge
    | SendImage(userId: string, file: FormDataModel.File)

  /** The checks before a photo upload: a file and a user, an `image/` type, at most 5 MB. */
  function CheckUpload(file: Option<FormDataModel.File>, user: Option<User>): (r: UploadCheck)
    ensures r.NothingToUpload? <==> file.None? || user.None?
    ensures r.SendImage? <==> file.Some? && user.Some? && StartsWith(file.value.mimeType, "image/") && file.value.size <= MaxImageSize
    ensures r.SendImage? ==> r.file == file.value && r.userId == user.value.id
    ensures r.TooLarge? ==> StartsWith(file.value.mimeType, "image/") && file.value.size > MaxImageSize
  {
    if file.None? || user.None? then NothingToUpload
    else if !StartsWith(file.value.mimeType, "image/") then NotAnImage
    else if file.value.size > MaxImageSize then TooLarge
    else SendImage(user.value.id, file.value)
  }

  /** The badge of a vehicle status. */
  datatype StatusInfo = StatusInfo(caption: string, color: string)

  const UnknownStatusColor := "bg-gray-100 text-gray-800"

  /** `getVehicleStatusInfo(status)`: the three statuses in French; any other value shows itself in grey. */
  function VehicleStatusInfo(status: string): (r: StatusInfo)
    ensures r.color == UnknownStatusColor <==> status !in {"AVAILABLE", "MAINTENANCE", "OUT_OF_SERVICE"}
    ensures r.color == UnknownStatusColor ==> r.caption == status
    ensures forall i :: (0 <= i < |VehicleStatusOptions| && VehicleStatusOptions[i].value.Name() == status) ==> r.caption == VehicleStatusOptions[i].caption
  {
    if status == "AVAILABLE" then StatusInfo("Disponible", "bg-green-100 text-green-800")
    else if status == "MAINTENANCE" then StatusInfo("Maintenance", "bg-yellow-100 text-yellow-800")
    else if status == "OUT_OF_SERVICE" then StatusInfo("Hors service", "bg-red-100 text-red-800")
    else StatusInfo(status, UnknownStatusColor)
  }

  /**
   * `getUserImage()`: the first image of a non-empty array. A lone string has
   * a `length` and an index too, so it yields its first character; a lone
   * object has no `length` and yields nothing.
   */
  function UserImage(user: Option<User>): (r: Option<Image>)
    ensures user.Some? && user.value.images.Many? && |user.value.images.items| > 0 ==> r == Some(user.value.images.items[0])
    ensures user.None? || user.value.images.NoImages? ==> r.None?
    ensures user.Some? && user.value.images.Many? && |user.value.images.items| == 0 ==> r.None?
    ensures user.Some? && user.value.images.One? && user.value.images.item.Url? && user.value.images.item.url != ""
      ==> r == Some(Url([user.value.images.item.url[0]]))
  {
    if user.None? then None
    else match user.value.images
      case Many(items) => if |items| > 0 then Some(items[0]) else None
      case One(item) => if item.Url? && item.url != "" then Some(Url([item.url[0]])) else None
      case NoImages => None
  }

  /** `user.x || ''`. */
  function OrEmpty(s: Option<string>): (r: string)
    ensures s.Some? ==> r == s.value
    ensures s.None? ==> r == ""
  {
    if s.Some? then s.value else ""
  }

  /** The profile form as filled from a user. */
  function ProfileOf(u: User): (m: map<string, string>)
    ensures m.Keys == {"name", "email", "phone"}
    ensures m["name"] == OrEmpty(u.name) && m["email"] == OrEmpty(u.email) && m["phone"] == OrEmpty(u.phone)
  {
    map["name" := OrEmpty(u.name), "email" := OrEmpty(u.email), "phone" := OrEmpty(u.phone)]
  }

  /** The cleared password form. */
  const ClearedPasswords: map<string, string> :=
    map["currentPassword" := "", "newPassword" := "", "confirmPassword" := ""]

  /** An answer of the user service carrying the user and, possibly, their vehicles. */
  datatype LoadedUser = LoadedUser(user: User, vehicles: Option<seq<Vehicle>>)

  class Settings {
    var user: Option<User>
    var vehicles: seq<Vehicle>
    var isEditing: bool
    var isEditingPassword: bool
    var formData: map<string, string>
    var passwordData: map<string, string>

    /** Both forms always hold their initial fields (handlers may add others, never remove). */
    ghost predicate Valid()
      reads this
    {
      {"name", "email", "phone"} <= formData.Keys
      && {"currentPassword", "newPassword", "confirmPassword"} <= passwordData.Keys
    }

    constructor()
      ensures Valid() && user.None? && vehicles == [] && !isEditing && !isEditingPassword
      ensures formData == map["name" := "", "email" := "", "phone" := ""]
      ensures passwordData == ClearedPasswords
    {
      user := None;
      vehicles := [];
      isEditing := false;
      isEditingPassword := false;
      formData := map["name" := "", "email" := "", "phone" := ""];
      passwordData := ClearedPasswords;
    }

    /** `loadUserData`: an answer with data fills the user, the profile form and, when present, the vehicles. */
    method Load(answer: Option<LoadedUser>)
      requires Valid()
      modifies this`user, this`formData, this`vehicles
      ensures Valid()
      ensures answer.Some? ==> user == Some(answer.value.user) && formData == ProfileOf(answer.value.user)
      ensures answer.Some? && answer.value.vehicles.Some? ==> vehicles == answer.value.vehicles.value
      ensures answer.None? || answer.value.vehicles.None? ==> vehicles == old(vehicles)
      ensures answer.None? ==> user == old(user) && formData == old(formData)
    {
      if answer.Some? {
        user := Some(answer.value.user);
        formData := ProfileOf(answer.value.user);
        if answer.value.vehicles.Some? {
          vehicles := answer.value.vehicles.value;
        }
      }
    }

    /** `handleInputChange`: only the field with that name changes. */
    method InputChange(name: string, value: string)
      requires Valid()
      modifies this`formData
      ensures Valid()
      ensures formData == old(formData)[name := value]
      ensures forall k :: k in old(formData) && k != name ==> k in formData && formData[k] == old(formData)[k]
    {
      formData := formData[name := value];
    }

    /** `handlePasswordChange`: only the password field with that name changes. */
    method PasswordChange(name: string, value: string)
      requires Valid()
      modifies this`passwordData
      ensures Valid()
      ensures passwordData == old(passwordData)[name := value]
      ensures forall k :: k in old(passwordData) && k != name ==> k in passwordData && passwordData[k] == old(passwordData)[k]
    {
      passwordData := passwordData[name := value];
    }

    /** The "Modifier" button of the profile card starts editing it. */
    method StartEditing()
      requires Valid()
      modifies this`isEditing
      ensures Valid() && isEditing
    {
      isEditing := true;
    }

    /** The "Modifier" button of the password card starts editing the password. */
    method StartEditingPassword()
      requires Valid()
      modifies this`isEditingPassword
      ensures Valid() && isEditingPassword
    {
      isEditingPassword := true;
    }

    /**
     * `handleSave`: with a user, the three profile fields are sent to that
     * user's id; an answer with data replaces the user and ends editing.
     */
    method Save(answer: Option<User>) returns (sent: Option<(string, seq<FormDataModel.Entry>)>)
      requires Valid()
      modifies this`user, this`isEditing
      ensures Valid()
      ensures old(user).None? ==> sent.None? && user == old(user) && isEditing == old(isEditing)
      ensures old(user).Some? ==> sent == Some((old(user).value.id, [("name", FormDataModel.Text(formData["name"])),
        ("email", FormDataModel.Text(formData["email"])), ("phone", FormDataModel.Text(formData["phone"]))]))
      ensures old(user).Some? && answer.Some? ==> user == answer && !isEditing
      ensures old(user).Some? && answer.None? ==> user == old(user) && isEditing == old(isEditing)
    {
      if user.None? {
        return None;
      }
      var fd := new FormDataModel.FormData();
      fd.Append("name", FormDataModel.Text(formData["name"]));
      fd.Append("email", FormDataModel.Text(formData["email"]));
      fd.Append("phone", FormDataModel.Text(formData["phone"]));
      assert fd.entries == [("name", FormDataModel.Text(formData["name"])),
        ("email", FormDataModel.Text(formData["email"])), ("phone", FormDataModel.Text(formData["phone"]))];
      sent := Some((user.value.id, fd.entries));
      if answer.Some? {
        user := answer;
        isEditing := false;
      }
    }

    /**
     * `handleSavePassword`: the checks of `CheckPassword`; when they pass, only
     * the new password is sent, and an answer with data clears the three fields
     * and ends password editing.
     */
    method SavePassword(answered: bool) returns (r: PasswordCheck)
      requires Valid()
      modifies this`passwordData, this`isEditingPassword
      ensures Valid()
      ensures r == CheckPassword(user, old(passwordData)["newPassword"], old(passwordData)["confirmPassword"])
      ensures r.SendPassword? && answered ==> passwordData == ClearedPasswords && !isEditingPassword
      ensures !(r.SendPassword? && answered) ==> passwordData == old(passwordData) && isEditingPassword == old(isEditingPassword)
    {
      if user.None? {
        return NoUser;
      }
      if passwordData["newPassword"] != passwordData["confirmPassword"] {
        return Mismatch;
      }
      if Utf16Length(passwordData["newPassword"]) < MinPasswordLength {
        return TooShort;
      }
      r := SendPassword(user.value.id, passwordData["newPassword"]);
      if answered {
        isEditingPassword := false;
        passwordData := ClearedPasswords;
      }
    }

    /** `handleImageUpload`: the checks of `CheckUpload`; an accepted upload answered with data replaces the user. */
    method ImageUpload(file: Option<FormDataModel.File>, answer: Option<User>) returns (r: UploadCheck)
      requires Valid()
      modifies this`user
      ensures Valid()
      ensures r == CheckUpload(file, old(user))
      ensures r.SendImage? && answer.Some? ==> user == answer
      ensures !(r.SendImage? && answer.Some?) ==> user == old(user)
    {
      r := CheckUpload(file, user);
      if r.SendImage? && answer.Some? {
        user := answer;
      }
    }

    /** `handleCancel`: with a user, the profile form is restored from it; editing ends either way. */
    method Cancel()
      requires Valid()
      modifies this`formData, this`isEditing
      ensures Valid() && !isEditing
      ensures user.Some? ==> formData == ProfileOf(user.value)
      ensures user.None? ==> formData == old(formData)
    {
      if user.Some? {
        formData := ProfileOf(user.value);
      }
      isEditing := false;
    }

    /** `handleCancelPassword`: the three fields are cleared and password editing ends. */
    method CancelPassword()
      requires Valid()
      modifies this`passwordData, this`isEditingPassword
      ensures Valid() && passwordData == ClearedPasswords && !isEditingPassword
    {
      passwordData := ClearedPasswords;
      isEditingPassword := false;
    }
  }
}

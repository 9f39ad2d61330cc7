/**
 * The sign-up form of `components/home/Signup.tsx`: the password and phone
 * regular expressions, the field rules with the confirmation check, the image
 * slots (one or four depending on the role), and the FormData it submits.
 */
module SignupForm {
  import opened Wrappers
  import opened Text
  import opened Interfaces
  import opened FormDataModel

  // ---------------------------------------------------------------- password

  /** The characters JavaScript's `.` does not match. */
  predicate LineTerminator(c: char) {
    c == '\n' || c == '\r' || c == '\U{2028}' || c == '\U{2029}'
  }

  predicate NoTerminator(s: string) {
    forall i :: 0 <= i < |s| ==> !LineTerminator(s[i])
  }

  predicate IsUpper(c: char) {
    'A' <= c <= 'Z'
  }

  /** The class `[!@#$%^&*()_+\-=\[\]{};':"\\|,.<>\/?]`. */
  predicate IsSymbol(c: char) {
    c in "!@#$%^&*()_+-=[]{};':\"\\|,.<>/?"
  }

  /** `(?=.*[C])` at the start of the input: a class character reached through non-terminators. */
  predicate LookaheadFinds(s: string, cls: char -> bool) {
    exists i :: 0 <= i < |s| && cls(s[i]) && NoTerminator(s[..i])
  }

  /** Some character of the string is in the class. */
  predicate Contains(s: string, cls: char -> bool) {
    exists i :: 0 <= i < |s| && cls(s[i])
  }

  /** `passwordRegex.test(s)`: the three lookaheads, then `.{8,}$` over the whole input. */
  predicate PasswordRegex(s: string) {
    LookaheadFinds(s, IsUpper) && LookaheadFinds(s, IsDigit) && LookaheadFinds(s, IsSymbol)
    && NoTerminator(s) && Utf16Length(s) >= 8
  }

  lemma LookaheadOnCleanInput(s: string, cls: char -> bool)
    requires NoTerminator(s)
    ensures LookaheadFinds(s, cls) <==> Contains(s, cls)
  {
    if Contains(s, cls) {
      var i :| 0 <= i < |s| && cls(s[i]);
      assert NoTerminator(s[..i]) by {
        forall j | 0 <= j < i
          ensures !LineTerminator(s[..i][j])
        {
          assert s[..i][j] == s[j];
        }
      }
    }
  }

  /**
   * A password is accepted exactly when it has at least 8 characters, no line
   * break, and contains an uppercase letter, a digit and one of the listed symbols.
   */
  lemma PasswordRule(s: string)
    ensures PasswordRegex(s) <==>
      Utf16Length(s) >= 8 && NoTerminator(s) && Contains(s, IsUpper) && Contains(s, IsDigit) && Contains(s, IsSymbol)
  {
    if NoTerminator(s) {
      LookaheadOnCleanInput(s, IsUpper);
      LookaheadOnCleanInput(s, IsDigit);
      LookaheadOnCleanInput(s, IsSymbol);
    }
  }

  // ---------------------------------------------------------------- phone

  /** `/^\+?\d{8,15}$/.test(s)`. */
  predicate PhoneRegex(s: string) {
    var digits := if |s| > 0 && s[0] == '+' then s[1..] else s;
    8 <= |digits| <= 15 && AllDigits(digits)
  }

  /** The phone field: absent, empty, or matching the regex. */
  predicate PhoneOk(phone: Option<string>) {
    phone.None? || phone.value == "" || PhoneRegex(phone.value)
  }

  /** A phone number is accepted iff it is empty, or an optional '+' followed by 8 to 15 digits. */
  lemma PhoneRule(phone: string)
    ensures PhoneOk(Some(phone)) <==>
      phone == "" || exists p :: (phone == p || phone == "+" + p) && 8 <= |p| <= 15 && AllDigits(p)
  {
    if phone != "" && PhoneRegex(phone) {
      var p := if phone[0] == '+' then phone[1..] else phone;
      if phone[0] == '+' {
        assert phone == "+" + p;
      }
    }
    if phone != "" && exists p :: (phone == p || phone == "+" + p) && 8 <= |p| <= 15 && AllDigits(p) {
      var p :| (phone == p || phone == "+" + p) && 8 <= |p| <= 15 && AllDigits(p);
      if phone == "+" + p {
        assert phone[1..] == p;
      } else {
        assert phone[0] != '+' by { assert IsDigit(p[0]); }
      }
    }
  }

  // ---------------------------------------------------------------- schema

  datatype SignupValues = SignupValues(
    name: string,
    email: string,
    phone: Option<string>,
    password: string,
    confirmPassword: string,
    images: seq<Slot>)

  datatype SignupField = NameField | EmailField | PhoneField | PasswordField | ConfirmField | ImagesField

  /** The message each rule shows under its field. */
  function ErrorMessage(f: SignupField): string {
    match f
    case NameField => "Le nom doit contenir au moins 3 caractères"
    case EmailField => "Email invalide"
    case PhoneField => "Numéro de téléphone invalide (8 à 15 chiffres, optionnel +)"
    case PasswordField => "Le mot de passe doit contenir 8 caractères minimum, avec une majuscule, un chiffre et un symbole"
    case ConfirmField => "Les mots de passe ne correspondent pas"
    case ImagesField => "Maximum 4 fichiers autorisés"
  }

  /**
   * The fields `userSchema` flags. The e-mail rule belongs to the validation
   * library and is a parameter.
   */
  function SignupErrors(v: SignupValues, isEmail: string -> bool): (errs: set<SignupField>)
    ensures NameField in errs <==> Utf16Length(v.name) < 3
    ensures EmailField in errs <==> !isEmail(v.email)
    ensures PhoneField in errs <==> !PhoneOk(v.phone)
    ensures PasswordField in errs <==> !PasswordRegex(v.password)
    ensures ImagesField in errs <==> |v.images| > 4
    ensures ConfirmField in errs <==> v.password != v.confirmPassword
  {
    set f | f in {NameField, EmailField, PhoneField, PasswordField, ConfirmField, ImagesField} && Flagged(v, isEmail, f)
  }

  /** The rule of one field of `userSchema`. */
  predicate Flagged(v: SignupValues, isEmail: string -> bool, f: SignupField) {
    match f
    case NameField => Utf16Length(v.name) < 3
    case EmailField => !isEmail(v.email)
    case PhoneField => !PhoneOk(v.phone)
    case PasswordField => !PasswordRegex(v.password)
    case ConfirmField => v.password != v.confirmPassword
    case ImagesField => |v.images| > 4
  }

  /**
   * A mismatch between password and confirmation alone makes the form invalid,
   * and its error sits on the confirmation field, not on the password field.
   */
  lemma MismatchBlocksSubmit(v: SignupValues, isEmail: string -> bool)
    requires v.password != v.confirmPassword
    ensures SignupErrors(v, isEmail) != {}
    ensures ConfirmField in SignupErrors(v, isEmail)
    ensures PasswordRegex(v.password) ==> PasswordField !in SignupErrors(v, isEmail)
  {
    assert ConfirmField in SignupErrors(v, isEmail);
  }

  // ---------------------------------------------------------------- image slots

  /** One slot for USER and ADMIN, four for the other roles. */
  function SlotCount(role: Role): (n: nat)
    ensures n == 1 <==> role == Role.USER || role == Role.ADMIN
    ensures n == 1 || n == 4
  {
    if role == Role.USER || role == Role.ADMIN then 1 else 4
  }

  /** The captions under the slots. */
  function FileLabels(role: Role): (labels: seq<string>)
    ensures |labels| == SlotCount(role)
  {
    if role == Role.USER || role == Role.ADMIN then ["Photo de profil (optionnelle)"]
    else ["Photo de profil", "Carte CNI", "Permis de conduire", "Autre document"]
  }

  /** The French role name in the form title. */
  function RoleFR(role: Role): (s: string)
    ensures s != ""
  {
    match role
    case USER => "Utilisateur"
    case ADMIN => "Administrateur"
    case DRIVER => "Chauffeur"
    case PARTENAIRE => "Partenaire"
  }

  /** Every role has its own title word. */
  lemma RoleFRDistinct(a: Role, b: Role)
    ensures RoleFR(a) == RoleFR(b) ==> a == b
  {
  }

  /**
   * The initial slots: the initial images, then empty slots up to the role's
   * count; more initial images than slots make the initialiser throw (None).
   */
  function InitialSlots(init: Option<seq<Slot>>, role: Role): (r: Option<seq<Slot>>)
    ensures r.None? <==> |init.GetOr([])| > SlotCount(role)
    ensures r.Some? ==> |r.value| == SlotCount(role) && r.value[..|init.GetOr([])|] == init.GetOr([])
  {
    PadSlots(init.GetOr([]), SlotCount(role))
  }

  // ---------------------------------------------------------------- submission

  /** The value of the `phone` field, when it is truthy. */
  predicate PhoneGiven(phone: Option<string>) {
    phone.Some? && phone.value != ""
  }

  /** The entries `submitHandler` appends, in order. */
  function SignupEntries(data: SignupValues, role: Role): seq<Entry> {
    SignupHead(data, role) + FileEntries("images", data.images)
  }

  /** The entries before the images: name, email, phone when given, password, role. */
  function SignupHead(data: SignupValues, role: Role): seq<Entry> {
    IdentityEntries(data) + PhoneEntries(data.phone) + SecretEntries(data, role)
  }

  /** Name and email. */
  function IdentityEntries(data: SignupValues): seq<Entry> {
    [("name", Text(data.name)), ("email", Text(data.email))]
  }

  /** The phone entry, only when the phone is given. */
  function PhoneEntries(phone: Option<string>): seq<Entry> {
    if PhoneGiven(phone) then [("phone", Text(phone.value))] else []
  }

  /** Password and role. */
  function SecretEntries(data: SignupValues, role: Role): seq<Entry> {
    [("password", Text(data.password)), ("role", Text(role.Name()))]
  }

  /** `get` on the whole payload reads the four parts in turn. */
  lemma FirstThroughSignupParts(data: SignupValues, role: Role, name: string)
    ensures var id, ph, sec := IdentityEntries(data), PhoneEntries(data.phone), SecretEntries(data, role);
      First(SignupEntries(data, role), name) ==
        if First(id, name).Some? then First(id, name)
        else if First(ph, name).Some? then First(ph, name)
        else if First(sec, name).Some? then First(sec, name)
        else First(FileEntries("images", data.images), name)
  {
    var id, ph, sec, files := IdentityEntries(data), PhoneEntries(data.phone), SecretEntries(data, role), FileEntries("images", data.images);
    FirstAppend(id, ph, name);
    FirstAppend(id + ph, sec, name);
    FirstAppend(id + ph + sec, files, name);
  }

  /** The payload always carries name, email, password and role; phone only when it is non-empty. */
  lemma SignupPayloadFields(data: SignupValues, role: Role)
    ensures First(SignupEntries(data, role), "name") == Some(Text(data.name))
    ensures First(SignupEntries(data, role), "email") == Some(Text(data.email))
    ensures First(SignupEntries(data, role), "password") == Some(Text(data.password))
    ensures First(SignupEntries(data, role), "role") == Some(Text(role.Name()))
    ensures First(SignupEntries(data, role), "phone").Some? <==> PhoneGiven(data.phone)
  {
    var id, ph, sec := IdentityEntries(data), PhoneEntries(data.phone), SecretEntries(data, role);
    FirstAt(id, "name", 0);
    FirstAt(id, "email", 1);
    assert First(id, "password").None? && First(id, "role").None? && First(id, "phone").None?;
    assert First(ph, "password").None? && First(ph, "role").None?;
    FirstAt(sec, "password", 0);
    FirstAt(sec, "role", 1);
    assert First(sec, "phone").None?;
    assert First(FileEntries("images", data.images), "phone").None?;
    FirstThroughSignupParts(data, role, "name");
    FirstThroughSignupParts(data, role, "email");
    FirstThroughSignupParts(data, role, "password");
    FirstThroughSignupParts(data, role, "role");
    FirstThroughSignupParts(data, role, "phone");
  }

  /** One `images` file per picked slot is sent, and nothing for the other slots. */
  lemma SignupPayloadFiles(data: SignupValues, role: Role)
    ensures Count(SignupEntries(data, role), "images") == PickedCount(data.images)
    ensures forall e :: e in SignupEntries(data, role) && e.0 == "images" ==> e.1.Blob?
  {
    var head := SignupHead(data, role);
    var files := FileEntries("images", data.images);
    CountAppend(head, files, "images");
    FileEntriesCount("images", data.images);
    CountAbsent(head, "images");
  }

  /** `submitHandler`: builds the FormData by successive appends. */
  method BuildSignupForm(data: SignupValues, role: Role) returns (fd: FormData)
    ensures fresh(fd)
    ensures fd.entries == SignupEntries(data, role)
  {
    fd := new FormData();
    fd.Append("name", Text(data.name));
    fd.Append("email", Text(data.email));
    if PhoneGiven(data.phone) {
      fd.Append("phone", Text(data.phone.value));
    }
    fd.Append("password", Text(data.password));
    fd.Append("role", Text(role.Name()));
    assert fd.entries == SignupHead(data, role);
    fd.AppendFiles("images", data.images);
  }

  /** The image slots of a mounted form and the `images` value held by the form library. */
  class SignupImages {
    const role: Role
    var images: seq<Slot>
    var formImages: seq<Slot>

    constructor(role: Role, init: Option<seq<Slot>>, initialFormImages: seq<Slot>)
      requires InitialSlots(init, role).Some?
      ensures this.role == role && images == InitialSlots(init, role).value
      ensures formImages == initialFormImages
    {
      this.role := role;
      images := InitialSlots(init, role).value;
      formImages := initialFormImages;
    }

    /** `handleImageChange(index, file)`: only slot `index` changes, in both copies. */
    method ChangeImage(index: nat, file: Option<File>)
      requires index < |images|
      modifies this
      ensures images == SetSlot(old(images), index, if file.Some? then Picked(file.value) else Empty)
      ensures formImages == images
    {
      images := SetSlot(images, index, if file.Some? then Picked(file.value) else Empty);
      formImages := images;
    }
  }
}

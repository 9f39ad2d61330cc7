/**
 * The account management page of `app/dashboard/utilisateurs/page.tsx`: the
 * stored role that picks the sign-up form's variant, the user list with its
 * page guards, the edit value built from a user, and the sign-up post that
 * leaves the page as it is.
 */
module UtilisateursPage {
  import opened Wrappers
  import opened Interfaces
  import opened FormDataModel
  import opened SignupForm
  import Pagination

  /**
   * `handleUpdate`'s `editData`: name, email and phone with "" when missing,
   * an empty password and confirmation, and the user's images as slots.
   */
  function EditValue(u: User): (r: SignupValues)
    ensures r.name == u.name.GetOr("") && r.email == u.email.GetOr("") && r.phone == Some(u.phone.GetOr(""))
    ensures r.password == "" && r.confirmPassword == ""
    ensures r.images == ImageSlots(u.images)
  {
    SignupValues(u.name.GetOr(""), u.email.GetOr(""), Some(u.phone.GetOr("")), "", "", ImageSlots(u.images))
  }

  /**
   * An edit value is never accepted as it is: its empty password fails the
   * password rule, while the matching empty confirmation raises no mismatch.
   */
  lemma EditNeedsNewPassword(u: User, isEmail: string -> bool)
    ensures PasswordField in SignupErrors(EditValue(u), isEmail)
    ensures ConfirmField !in SignupErrors(EditValue(u), isEmail)
  {
  }

  /**
   * Editing a user with more images than the page role's slot count makes
   * the form's slot initialiser throw: on an ADMIN's page a user with two
   * images cannot be edited.
   */
  lemma EditImagesFitSlots(u: User, role: Role)
    ensures InitialSlots(Some(EditValue(u).images), role).None? <==> |ImageSlots(u.images)| > SlotCount(role)
    ensures u.images.Many? && |u.images.items| == 2 ==> InitialSlots(Some(EditValue(u).images), Role.ADMIN).None?
  {
  }

  class Page {
    const limit: nat
    var drawerOpen: bool
    var currentPage: int
    var totalItems: nat
    var editValue: Option<SignupValues>
    var role: Role
    var isReady: bool
    var users: seq<User>

    ghost predicate Valid()
      reads this
    {
      limit == 10 && currentPage >= 1
    }

    /** The initial state: drawer closed, page 1 of nothing, role DRIVER, not ready. */
    constructor()
      ensures Valid()
      ensures !drawerOpen && currentPage == 1 && totalItems == 0 && editValue.None?
      ensures role == Role.DRIVER && !isReady && users == []
    {
      limit := 10;
      drawerOpen := false;
      currentPage := 1;
      totalItems := 0;
      editValue := None;
      role := Role.DRIVER;
      isReady := false;
      users := [];
    }

    /** The mount effect: a stored role replaces DRIVER only when it is a Role value; then the page is ready. */
    method Mount(stored: Option<string>)
      requires Valid()
      modifies this`role, this`isReady
      ensures Valid() && isReady
      ensures role == RoleFromStorage(stored, old(role))
    {
      role := RoleFromStorage(stored, role);
      isReady := true;
    }

    /** `fetchUsers`: only a 200 carrying data replaces the rows, the total and the page. */
    method Loaded(statusCode: int, data: Option<(seq<User>, nat, int)>)
      requires Valid() && (data.Some? ==> data.value.2 >= 1)
      modifies this`users, this`totalItems, this`currentPage
      ensures Valid()
      ensures statusCode == 200 && data.Some? ==>
        users == data.value.0 && totalItems == data.value.1 && currentPage == data.value.2
      ensures !(statusCode == 200 && data.Some?) ==>
        users == old(users) && totalItems == old(totalItems) && currentPage == old(currentPage)
    {
      if statusCode == 200 && data.Some? {
        users := data.value.0;
        totalItems := data.value.1;
        currentPage := data.value.2;
      }
    }

    /** `handleNextPage`. */
    method NextPage()
      requires Valid()
      modifies this`currentPage
      ensures Valid()
      ensures currentPage == Pagination.NextPage(old(currentPage), totalItems, limit)
    {
      if currentPage * limit < totalItems {
        currentPage := currentPage + 1;
      }
    }

    /** `handlePreviousPage`. */
    method PreviousPage()
      requires Valid()
      modifies this`currentPage
      ensures Valid()
      ensures currentPage == Pagination.PreviousPage(old(currentPage))
    {
      if currentPage > 1 {
        currentPage := currentPage - 1;
      }
    }

    /** The table's rows: `users.slice((currentPage - 1) * 10, currentPage * 10)`. */
    function Rows(): (w: seq<User>)
      reads this
      requires Valid()
      ensures |w| <= limit
      ensures |w| == Pagination.Max(0, Pagination.Min(currentPage * limit, |users|) - (currentPage - 1) * limit)
      ensures forall k :: 0 <= k < |w| ==> w[k] == users[(currentPage - 1) * limit + k]
    {
      Pagination.Window(users, currentPage, limit)
    }

    /** "Ajouter un compte": the drawer opens on an empty form. */
    method OpenAdd()
      requires Valid()
      modifies this`drawerOpen, this`editValue
      ensures Valid() && drawerOpen && editValue.None?
    {
      drawerOpen := true;
      editValue := None;
    }

    /** `handleUpdate(u)`: the drawer opens on the user's edit value. */
    method Edit(u: User)
      requires Valid()
      modifies this`drawerOpen, this`editValue
      ensures Valid() && drawerOpen && editValue == Some(EditValue(u))
    {
      editValue := Some(EditValue(u));
      drawerOpen := true;
    }

    /** The overlay and "Fermer" close the drawer; the edit value stays. */
    method CloseDrawer()
      requires Valid()
      modifies this`drawerOpen
      ensures Valid() && !drawerOpen
    {
      drawerOpen := false;
    }

    /** `handleDelete(u)`: the user's id is sent; the list reloads only on 200. */
    method Delete(u: User, statusCode: int) returns (id: string, reload: bool)
      requires Valid()
      ensures id == u.id && (reload <==> statusCode == 200)
    {
      id := u.id;
      reload := statusCode == 200;
    }

    /**
     * `handleSignup(fd)`: the form's entries are posted as they are. Whether
     * the answer is ok or not, the drawer stays open and the list is not
     * reloaded: the method changes nothing on the page.
     */
    method Signup(fd: FormData, ok: bool) returns (body: seq<Entry>, succeeded: bool)
      requires Valid()
      ensures body == fd.entries && (succeeded <==> ok)
    {
      body := fd.entries;
      succeeded := ok;
    }

    /** The page renders nothing until the role has been read. */
    predicate Renders()
      reads this
    {
      isReady
    }
  }
}

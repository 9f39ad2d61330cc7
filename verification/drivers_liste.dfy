/**
 * The partner's driver list of `components/dashboard/DriversListe.tsx`: the
 * stored role, the driver list with its page guards, the edit value built
 * from a driver, and the submission that updates (success on 200) or
 * creates (success on 201) depending on the FormData's `id` entry.
 *
 * The form it opens, `SignupUsers`, is not part of this model; its values
 * are the edit value below.
 */
module DriversListe {
  import opened Wrappers
  import opened Interfaces
  import opened FormDataModel
  import Pagination

  /** `handleUpdate`'s `editData`; it carries no password key. */
  datatype DriverEditValue = DriverEditValue(
    id: string,
    name: string,
    email: string,
    phone: string,
    confirmPassword: string,
    images: seq<Slot>)

  /** name, email and phone with "" when missing, an empty confirmation, and the images as slots. */
  function EditValue(u: User): (r: DriverEditValue)
    ensures r.id == u.id && r.name == u.name.GetOr("") && r.email == u.email.GetOr("") && r.phone == u.phone.GetOr("")
    ensures r.confirmPassword == ""
    ensures r.images == ImageSlots(u.images) && PickedCount(r.images) == 0
  {
    ImageSlotsNotPicked(u.images);
    DriverEditValue(u.id, u.name.GetOr(""), u.email.GetOr(""), u.phone.GetOr(""), "", ImageSlots(u.images))
  }

  /** What `handleSignupUsers` sends. */
  datatype SaveRequest = UpdateUser(id: Value, body: seq<Entry>) | CreateUser(body: seq<Entry>)

  /** `if (id)` on `formData.get("id")`: a present entry is truthy unless it is the empty string. */
  predicate IdTruthy(id: Option<Value>) {
    id.Some? && (id.value.Blob? || id.value.s != "")
  }

  /** An update succeeds only on 200, a creation only on 201. */
  predicate Succeeded(req: SaveRequest, statusCode: int) {
    if req.UpdateUser? then statusCode == 200 else statusCode == 201
  }

  /** Unlike the other pages, an update answered 201 or a creation answered 200 counts as a failure. */
  lemma SuccessCodeDependsOnKind(id: Value, body: seq<Entry>)
    ensures !Succeeded(UpdateUser(id, body), 201) && Succeeded(UpdateUser(id, body), 200)
    ensures !Succeeded(CreateUser(body), 200) && Succeeded(CreateUser(body), 201)
  {
  }

  class Liste {
    const limit: nat
    var drawerOpen: bool
    var currentPage: int
    var totalItems: nat
    var editValue: Option<DriverEditValue>
    var role: Role
    var isReady: bool
    var users: seq<User>

    ghost predicate Valid()
      reads this
    {
      limit == 5 && currentPage >= 1
    }

    /** The initial state: drawer closed, page 1 of nothing, role DRIVER, not ready. */
    constructor()
      ensures Valid()
      ensures !drawerOpen && currentPage == 1 && totalItems == 0 && editValue.None?
      ensures role == Role.DRIVER && !isReady && users == []
    {
      limit := 5;
      drawerOpen := false;
      currentPage := 1;
      totalItems := 0;
      editValue := None;
      role := Role.DRIVER;
      isReady := false;
      users := [];
    }

    /** The mount effect: a stored role replaces DRIVER only when it is a Role value; then the list is ready. */
    method Mount(stored: Option<string>)
      requires Valid()
      modifies this`role, this`isReady
      ensures Valid() && isReady
      ensures role == RoleFromStorage(stored, old(role))
    {
      role := RoleFromStorage(stored, role);
      isReady := true;
    }

    /** `fetchUsers`: only a 200 carrying data replaces the rows, the total and the page. */
    method Loaded(statusCode: int, data: Option<(seq<User>, nat, int)>)
      requires Valid() && (data.Some? ==> data.value.2 >= 1)
      modifies this`users, this`totalItems, this`currentPage
      ensures Valid()
      ensures statusCode == 200 && data.Some? ==>
        users == data.value.0 && totalItems == data.value.1 && currentPage == data.value.2
      ensures !(statusCode == 200 && data.Some?) ==>
        users == old(users) && totalItems == old(totalItems) && currentPage == old(currentPage)
    {
      if statusCode == 200 && data.Some? {
        users := data.value.0;
        totalItems := data.value.1;
        currentPage := data.value.2;
      }
    }

    /** `handleNextPage`. */
    method NextPage()
      requires Valid()
      modifies this`currentPage
      ensures Valid()
      ensures currentPage == Pagination.NextPage(old(currentPage), totalItems, limit)
    {
      if currentPage * limit < totalItems {
        currentPage := currentPage + 1;
      }
    }

    /** `handlePreviousPage`. */
    method PreviousPage()
      requires Valid()
      modifies this`currentPage
      ensures Valid()
      ensures currentPage == Pagination.PreviousPage(old(currentPage))
    {
      if currentPage > 1 {
        currentPage := currentPage - 1;
      }
    }

    /** The table's rows: `users.slice((currentPage - 1) * 5, currentPage * 5)`. */
    function Rows(): (w: seq<User>)
      reads this
      requires Valid()
      ensures |w| <= limit
      ensures |w| == Pagination.Max(0, Pagination.Min(currentPage * limit, |users|) - (currentPage - 1) * limit)
      ensures forall k :: 0 <= k < |w| ==> w[k] == users[(currentPage - 1) * limit + k]
    {
      Pagination.Window(users, currentPage, limit)
    }

    /** The add button: the drawer opens on an empty form. */
    method OpenAdd()
      requires Valid()
      modifies this`drawerOpen, this`editValue
      ensures Valid() && drawerOpen && editValue.None?
    {
      drawerOpen := true;
      editValue := None;
    }

    /** `handleUpdate(u)`: the drawer opens on the driver's edit value. */
    method Edit(u: User)
      requires Valid()
      modifies this`drawerOpen, this`editValue
      ensures Valid() && drawerOpen && editValue == Some(EditValue(u))
    {
      editValue := Some(EditValue(u));
      drawerOpen := true;
    }

    /** The overlay and "Fermer" close the drawer; the edit value stays. */
    method CloseDrawer()
      requires Valid()
      modifies this`drawerOpen
      ensures Valid() && !drawerOpen
    {
      drawerOpen := false;
    }

    /** `handleDelete(u)`: the driver's id is sent; the list reloads only on 200. */
    method Delete(u: User, statusCode: int) returns (id: string, reload: bool)
      requires Valid()
      ensures id == u.id && (reload <==> statusCode == 200)
    {
      id := u.id;
      reload := statusCode == 200;
    }

    /**
     * `handleSignupUsers(fd)` with the service's answer `statusCode`, or a
     * thrown error. A truthy `id` entry is deleted and the rest is sent as an
     * update of that id; otherwise the FormData is sent as a creation. On
     * success the drawer closes and the list reloads; the edit value stays.
     * A thrown error reloads the list and leaves the drawer; any other
     * answer changes nothing.
     */
    method Submit(fd: FormData, statusCode: int, throws: bool) returns (req: SaveRequest, reload: bool)
      requires Valid()
      modifies this`drawerOpen, fd
      ensures Valid()
      ensures IdTruthy(old(fd.Get("id"))) ==> req == UpdateUser(old(fd.Get("id")).value, Without(old(fd.entries), "id"))
      ensures IdTruthy(old(fd.Get("id"))) ==> First(req.body, "id").None?
      ensures !IdTruthy(old(fd.Get("id"))) ==> req == CreateUser(old(fd.entries))
      ensures fd.entries == req.body
      ensures throws ==> reload && drawerOpen == old(drawerOpen)
      ensures !throws ==> (reload <==> Succeeded(req, statusCode))
      ensures !throws && Succeeded(req, statusCode) ==> !drawerOpen
      ensures !throws && !Succeeded(req, statusCode) ==> drawerOpen == old(drawerOpen)
    {
      var id := fd.Get("id");
      if id.Some? && (id.value.Blob? || id.value.s != "") {
        GetAfterDelete(fd.entries, "id", "id");
        fd.Delete("id");
        req := UpdateUser(id.value, fd.entries);
      } else {
        req := CreateUser(fd.entries);
      }
      if throws {
        reload := true;
      } else if Succeeded(req, statusCode) {
        drawerOpen := false;
        reload := true;
      } else {
        reload := false;
      }
    }

    /** The list renders nothing until the role has been read. */
    predicate Renders()
      reads this
    {
      isReady
    }
  }
}

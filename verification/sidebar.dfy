/**
 * The dashboard menu of `components/dashboard/Sidebar.tsx`: the nine menu
 * entries with the roles allowed to see them, the filter by the user's role,
 * the user's initials and the role label. The role is the raw value the user
 * service returned, so a value outside the four roles is possible.
 */
module Sidebar {
  import opened Wrappers
  import opened Text
  import opened Interfaces

  datatype MenuItem = MenuItem(caption: string, href: string, roles: seq<Role>)

  const DashboardAdmin := MenuItem("Dashboard", "/dashboard", [Role.ADMIN])
  const DashboardDriver := MenuItem("Dashboard", "/dashboard/driver", [Role.PARTENAIRE, Role.DRIVER])
  const Utilisateurs := MenuItem("Utilisateurs", "/dashboard/utilisateurs", [Role.ADMIN])
  const VehicleTypes := MenuItem("Type de véhicule", "/dashboard/vehicleTypes", [Role.ADMIN])
  const Commandes := MenuItem("Commandes", "/dashboard/commandes", [Role.ADMIN, Role.PARTENAIRE, Role.DRIVER])
  const Flotte := MenuItem("Ma flotte", "/dashboard/vehicules", [Role.ADMIN, Role.PARTENAIRE])
  const Trajets := MenuItem("Mes trajets", "/dashboard/trajets", [Role.ADMIN, Role.PARTENAIRE, Role.DRIVER])
  const Transactions := MenuItem("Historique des transactions", "/dashboard/transactions", [Role.ADMIN, Role.PARTENAIRE])
  const Parametres := MenuItem("Paramètres", "/dashboard/parametres", [Role.ADMIN, Role.PARTENAIRE, Role.DRIVER, Role.USER])

  /** `menuItems`, in display order. */
  const MenuItems: seq<MenuItem> :=
    [DashboardAdmin, DashboardDriver, Utilisateurs, VehicleTypes, Commandes, Flotte, Trajets, Transactions, Parametres]

  /** `item.roles.includes(role)`: some allowed role has the value `role`. */
  predicate Allows(item: MenuItem, role: string) {
    exists k :: 0 <= k < |item.roles| && item.roles[k].Name() == role
  }

  /** `items.filter(item => item.roles.includes(role))`. */
  function Filter(items: seq<MenuItem>, role: string): (r: seq<MenuItem>)
    ensures |r| <= |items|
    ensures forall x :: x in r <==> x in items && Allows(x, role)
  {
    if items == [] then []
    else if Allows(items[0], role) then [items[0]] + Filter(items[1..], role)
    else Filter(items[1..], role)
  }

  /** Filtering distributes over concatenation, so the menu keeps the declaration order. */
  lemma {:induction false} FilterAppend(a: seq<MenuItem>, b: seq<MenuItem>, role: string)
    ensures Filter(a + b, role) == Filter(a, role) + Filter(b, role)
  {
    if a == [] {
      assert a + b == b;
    } else {
      var ab := a + b;
      assert ab[0] == a[0];
      assert ab[1..] == a[1..] + b;
      FilterAppend(a[1..], b, role);
      if Allows(a[0], role) {
        calc {
          Filter(ab, role);
          [a[0]] + Filter(a[1..] + b, role);
          [a[0]] + (Filter(a[1..], role) + Filter(b, role));
          ([a[0]] + Filter(a[1..], role)) + Filter(b, role);
        }
      }
    }
  }

  /** `getFilteredMenuItems()`. */
  function FilteredMenu(role: string): (r: seq<MenuItem>)
    ensures forall x :: x in r <==> x in MenuItems && Allows(x, role)
  {
    Filter(MenuItems, role)
  }

  /** Paramètres is shown to every role. */
  lemma ParametresForEveryRole(r: Role)
    ensures Parametres in FilteredMenu(r.Name())
  {
    assert MenuItems[8] == Parametres;
    match r
    case ADMIN => assert Parametres.roles[0].Name() == r.Name();
    case PARTENAIRE => assert Parametres.roles[1].Name() == r.Name();
    case DRIVER => assert Parametres.roles[2].Name() == r.Name();
    case USER => assert Parametres.roles[3].Name() == r.Name();
  }

  /** Only Paramètres lists the USER role. */
  lemma OnlyParametresForUser(role: string)
    requires role == Role.USER.Name()
    ensures forall x :: x in FilteredMenu(role) ==> x == Parametres
  {
    var others := [DashboardAdmin, DashboardDriver, Utilisateurs, VehicleTypes, Commandes, Flotte, Trajets, Transactions];
    assert MenuItems == others + [Parametres];
    NotForUser(DashboardAdmin, role);
    NotForUser(DashboardDriver, role);
    NotForUser(Utilisateurs, role);
    NotForUser(VehicleTypes, role);
    NotForUser(Commandes, role);
    NotForUser(Flotte, role);
    NotForUser(Trajets, role);
    NotForUser(Transactions, role);
    FilterNone(others, role);
    FilterAppend(others, [Parametres], role);
  }

  /** An entry that does not list USER is hidden from a USER. */
  lemma NotForUser(y: MenuItem, role: string)
    requires role == Role.USER.Name() && Role.USER !in y.roles
    ensures !Allows(y, role)
  {
    forall k | 0 <= k < |y.roles|
      ensures y.roles[k].Name() != role
    {
      assert y.roles[k] != Role.USER;
    }
  }

  /** A USER sees Paramètres and nothing else. */
  lemma UserSeesOnlyParametres()
    ensures Parametres in FilteredMenu("USER")
    ensures forall x :: x in FilteredMenu("USER") ==> x == Parametres
  {
    ParametresForEveryRole(Role.USER);
    OnlyParametresForUser("USER");
  }

  /** A listed item is shown exactly when it allows the role. */
  lemma ShownIffAllowed(x: MenuItem, role: string)
    requires x in MenuItems
    ensures x in FilteredMenu(role) <==> Allows(x, role)
  {
  }

  /** An item for one role allows exactly that role's value. */
  lemma AllowsOne(x: MenuItem, role: string)
    requires |x.roles| == 1
    ensures Allows(x, role) <==> role == x.roles[0].Name()
  {
  }

  /** An item for two roles allows exactly those two roles' values. */
  lemma AllowsTwo(x: MenuItem, role: string)
    requires |x.roles| == 2
    ensures Allows(x, role) <==> role == x.roles[0].Name() || role == x.roles[1].Name()
  {
    if role == x.roles[1].Name() {
      assert x.roles[1].Name() == role;
    }
  }

  /** ADMIN gets the `/dashboard` home; PARTENAIRE and DRIVER get `/dashboard/driver` instead; USER gets neither. */
  lemma DashboardHomes(r: Role)
    ensures DashboardAdmin in FilteredMenu(r.Name()) <==> r == Role.ADMIN
    ensures DashboardDriver in FilteredMenu(r.Name()) <==> r == Role.PARTENAIRE || r == Role.DRIVER
  {
    assert MenuItems[0] == DashboardAdmin && MenuItems[1] == DashboardDriver;
    ShownIffAllowed(DashboardAdmin, r.Name());
    AllowsOne(DashboardAdmin, r.Name());
    ShownIffAllowed(DashboardDriver, r.Name());
    AllowsTwo(DashboardDriver, r.Name());
  }

  /** Users and vehicle types are ADMIN-only; Ma flotte and the transactions are ADMIN and PARTENAIRE only. */
  lemma RestrictedEntries(role: string)
    ensures Utilisateurs in FilteredMenu(role) <==> role == "ADMIN"
    ensures VehicleTypes in FilteredMenu(role) <==> role == "ADMIN"
    ensures Flotte in FilteredMenu(role) <==> role == "ADMIN" || role == "PARTENAIRE"
    ensures Transactions in FilteredMenu(role) <==> role == "ADMIN" || role == "PARTENAIRE"
  {
    assert MenuItems[2] == Utilisateurs && MenuItems[3] == VehicleTypes;
    assert MenuItems[5] == Flotte && MenuItems[7] == Transactions;
    ShownIffAllowed(Utilisateurs, role);
    AllowsOne(Utilisateurs, role);
    ShownIffAllowed(VehicleTypes, role);
    AllowsOne(VehicleTypes, role);
    ShownIffAllowed(Flotte, role);
    AllowsTwo(Flotte, role);
    ShownIffAllowed(Transactions, role);
    AllowsTwo(Transactions, role);
  }

  /** A role value outside the four roles sees an empty menu. */
  lemma UnknownRoleSeesNothing(role: string)
    requires ParseRole(role).None?
    ensures FilteredMenu(role) == []
  {
    FilterNone(MenuItems, role);
  }

  /** When no item allows the role, the filter keeps nothing. */
  lemma {:induction false} FilterNone(items: seq<MenuItem>, role: string)
    requires forall i :: 0 <= i < |items| ==> !Allows(items[i], role)
    ensures Filter(items, role) == []
  {
    if items != [] {
      FilterNone(items[1..], role);
    }
  }

  /** The first character of every non-empty word: `word[0]`, where an empty word's `undefined` joins as "". */
  function Heads(words: seq<string>): (r: string)
    ensures |r| <= |words|
  {
    if words == [] then ""
    else (if words[0] == "" then "" else [words[0][0]]) + Heads(words[1..])
  }

  /** `getUserInitials()`: "U" without a name, else the upper-cased word heads, at most two. */
  function Initials(name: Option<string>): (r: string)
    ensures |r| <= 2
    ensures name.None? || name.value == "" ==> r == "U"
  {
    if name.None? || name.value == "" then "U"
    else Take(ToUpper(Heads(Split(name.value, ' '))), 2)
  }

  /** A one-word name gives its first letter, upper-cased (both letters of SS for ß). */
  lemma InitialsOneWord(w: string)
    requires w != "" && ' ' !in w
    ensures Initials(Some(w)) == UpperText(w[0])
    ensures w[0] != 'ß' && w[0] != 'ŉ' ==> Initials(Some(w)) == [UpperChar(w[0])]
  {
    SplitNoSeparator(w, ' ');
    assert Heads([w]) == [w[0]];
    assert ToUpper([w[0]]) == UpperText(w[0]) + ToUpper([]);
  }

  /** A name of two or more words gives the first letters of the first two, upper-cased. */
  lemma InitialsTwoWords(a: string, b: string, rest: string)
    requires a != "" && b != "" && ' ' !in a && ' ' !in b
    ensures Initials(Some(a + " " + b + rest)) == (UpperText(a[0]) + UpperText(b[0]))[..2]
    ensures a[0] !in "ßŉ" && b[0] !in "ßŉ" ==> Initials(Some(a + " " + b + rest)) == [UpperChar(a[0]), UpperChar(b[0])]
  {
    var t := HeadsOfTwoWords(a, b, rest);
    UpperTwo(a[0], b[0], t);
    var u := UpperText(a[0]) + UpperText(b[0]);
    assert Initials(Some(a + " " + b + rest)) == Take(u + ToUpper(t), 2);
    assert (u + ToUpper(t))[..2] == u[..2];
  }

  /** The word heads of a name of two or more words start with the first letters of the first two. */
  lemma HeadsOfTwoWords(a: string, b: string, rest: string) returns (t: string)
    requires a != "" && b != "" && ' ' !in a && ' ' !in b
    ensures Heads(Split(a + " " + b + rest, ' ')) == [a[0], b[0]] + t
  {
    var name := a + " " + b + rest;
    assert name == a + [' '] + (b + rest);
    SplitAfterWord(a, b + rest, ' ');
    var tail := Split(b + rest, ' ');
    assert tail[0][..|b|] == b by {
      BWordPrefix(b, rest);
    }
    assert Heads([a] + tail) == [a[0]] + Heads(tail);
    assert tail[0] != "" && tail[0][0] == b[0];
    assert Heads(tail) == [b[0]] + Heads(tail[1..]);
    t := Heads(tail[1..]);
  }

  /** Upper-casing two leading characters raises each of them in turn. */
  lemma UpperTwo(x: char, y: char, t: string)
    ensures ToUpper([x, y] + t) == UpperText(x) + UpperText(y) + ToUpper(t)
  {
    assert [x, y] + t == [x] + [y] + t;
    ToUpperAppend([x] + [y], t);
    ToUpperAppend([x], [y]);
    assert ToUpper([x]) == UpperText(x) + ToUpper([]);
    assert ToUpper([y]) == UpperText(y) + ToUpper([]);
  }

  /** The first piece of a split starts with every separator-free prefix of the string. */
  lemma {:induction false} BWordPrefix(b: string, rest: string)
    requires ' ' !in b
    ensures |Split(b + rest, ' ')[0]| >= |b|
    ensures Split(b + rest, ' ')[0][..|b|] == b
  {
    if b != [] {
      var s := b + rest;
      assert s[0] == b[0] && s[1..] == b[1..] + rest;
      BWordPrefix(b[1..], rest);
      var sub := Split(b[1..] + rest, ' ');
      assert Split(s, ' ')[0] == [b[0]] + sub[0];
      assert b == [b[0]] + b[1..];
    }
  }

  /** A name made only of spaces has no word heads, so its initials are empty rather than "U". */
  lemma SpacesOnlyName()
    ensures Initials(Some(" ")) == ""
  {
    assert Split(" ", ' ') == [""] + Split("", ' ');
  }

  /** `getRoleLabel(role)`, with "Utilisateur" for a value outside the four roles. */
  function RoleLabel(role: string): (r: string)
    ensures r == "Utilisateur" <==> ParseRole(role).None?
  {
    if role == "ADMIN" then "Administrateur"
    else if role == "PARTENAIRE" then "Partenaire"
    else if role == "DRIVER" then "Chauffeur"
    else if role == "USER" then "Client"
    else "Utilisateur"
  }

  /** The four roles get four different labels. */
  lemma RoleLabelsDistinct(a: Role, b: Role)
    ensures a != b ==> RoleLabel(a.Name()) != RoleLabel(b.Name())
  {
  }

  /** What the user service returned: a name (possibly missing) and a raw role value. */
  datatype UserInfos = UserInfos(name: Option<string>, role: string)

  class Menu {
    var userRole: string
    var userInfos: Option<UserInfos>

    /** Before the fetch: role DRIVER, no user. */
    constructor()
      ensures userRole == Role.DRIVER.Name() && userInfos.None?
    {
      userRole := Role.DRIVER.Name();
      userInfos := None;
    }

    /** `fetchUserInfos`: a truthy answer replaces the user and the role; otherwise nothing changes. */
    method Fetched(res: Option<UserInfos>)
      modifies this
      ensures res.Some? ==> userInfos == res && userRole == res.value.role
      ensures res.None? ==> userInfos == old(userInfos) && userRole == old(userRole)
    {
      if res.Some? {
        userInfos := res;
        userRole := res.value.role;
      }
    }

    /** The entries shown for the current role. */
    function Items(): (r: seq<MenuItem>)
      reads this
      ensures forall x :: x in r <==> x in MenuItems && Allows(x, userRole)
    {
      FilteredMenu(userRole)
    }

    /** The avatar's initials for the current user. */
    function UserInitials(): (r: string)
      reads this
      ensures |r| <= 2
      ensures userInfos.None? ==> r == "U"
    {
      Initials(if userInfos.Some? then userInfos.value.name else None)
    }
  }
}

/**
 * The sign-up page of `app/auth/signup/page.tsx`: it resolves the role from
 * storage once mounted (USER when the stored value is not a role), renders
 * nothing before that, greets each role with its own title and subtitle, and
 * treats only a 201 answer as success.
 */
module SignupPage {
  import opened Wrappers
  import opened Interfaces

  /** The heading shown above the form. */
  datatype Greeting = Greeting(title: string, subtitle: string)

  /** `roleMessages[role]`. */
  function RoleMessage(role: Role): (g: Greeting)
    ensures g.title != "" && g.subtitle != ""
  {
    match role
    case ADMIN => Greeting("Bienvenue, Administrateur !", "Gérez vos utilisateurs et vos contenus facilement.")
    case PARTENAIRE => Greeting("Devenez notre partenaire !", "Collaborez et développez votre activité avec nous.")
    case DRIVER => Greeting("Conduisez avec nous !", "Gagnez de l’argent en effectuant des trajets.")
    case USER => Greeting("Rejoignez notre communauté !", "Profitez de nos services et restez connecté.")
  }

  /** Different roles are greeted with different titles. */
  lemma RoleMessagesDistinct(a: Role, b: Role)
    ensures a != b ==> RoleMessage(a).title != RoleMessage(b).title
  {
  }

  /** Where `handleSignup` navigates: to the login page on 201, nowhere otherwise. */
  function SignupRedirect(statusCode: int): (r: Option<string>)
    ensures r.Some? <==> statusCode == 201
    ensures r.Some? ==> r.value == "/auth/login"
  {
    if statusCode == 201 then Some("/auth/login") else None
  }

  class Page {
    var role: Role
    var isReady: bool

    /** Before mounting: role DRIVER, not ready. */
    constructor()
      ensures role == Role.DRIVER && !isReady
    {
      role := Role.DRIVER;
      isReady := false;
    }

    /** The mount effect: a stored role value is kept, anything else becomes USER. */
    method Mount(stored: Option<string>)
      modifies this
      ensures role == RoleFromStorage(stored, Role.USER)
      ensures stored.Some? && ParseRole(stored.value).Some? ==> role.Name() == stored.value
      ensures stored.None? || ParseRole(stored.value).None? ==> role == Role.USER
      ensures isReady
    {
      if stored.Some? && stored.value != "" && ParseRole(stored.value).Some? {
        role := ParseRole(stored.value).value;
      } else {
        role := Role.USER;
      }
      isReady := true;
    }

    /** What the page renders: nothing before the role is resolved, then the role's greeting. */
    function Heading(): (g: Option<Greeting>)
      reads this
      ensures g.None? <==> !isReady
      ensures g.Some? ==> g.value == RoleMessage(role)
    {
      if isReady then Some(RoleMessage(role)) else None
    }
  }
}

/** The navigation shell: a `role` that is absent (login stack) or a string
    (drawer), the drawer's role-gated screen set and its icon choice. */
module AppNavigator {
  import opened Wrappers

  const Home := "Home"
  const About := "About"
  const Sensores := "Sensores"
  const Mapa := "Mapa"
  const Reportes := "Reportes"

  /** The screens only the admin role sees, in drawer order. */
  const AdminScreens: seq<string> := [Sensores, Mapa, Reportes]

  /** The routes the drawer has an icon for. */
  const KnownRoutes: seq<string> := [Home, About, Sensores, Mapa, Reportes]

  const FallbackIcon := "alert-circle-outline"

  /** What the navigation container shows. */
  datatype ScreenGraph = LoginStack | Drawer(screens: seq<string>)

  /** JavaScript truthiness of the role: present and non-empty. */
  predicate LoggedIn(role: Option<string>) {
    role.Some? && role.value != ""
  }

  /** The screens of `DrawerNavigator` for a role, in order: Home and About for
      everyone, then the three admin screens for exactly the role `admin`. */
  function DrawerScreens(role: string): (screens: seq<string>)
    ensures |screens| == if role == "admin" then 5 else 2
    ensures screens[..2] == [Home, About]
    ensures role == "admin" ==> screens[2..] == AdminScreens
    ensures forall name :: name in AdminScreens ==> (name in screens <==> role == "admin")
  {
    [Home, About] + (if role == "admin" then AdminScreens else [])
  }

  /** The `role ? <DrawerNavigator/> : <Stack.Navigator/>` switch. */
  function Shown(role: Option<string>): (g: ScreenGraph)
    ensures g.LoginStack? <==> role.None? || role.value == ""
    ensures g.Drawer? ==> g.screens == DrawerScreens(role.value)
  {
    if LoggedIn(role) then Drawer(DrawerScreens(role.value)) else LoginStack
  }

  /** The icon name for a drawer route: the filled icon when focused, the
      `-outline` icon when not, and a fallback for any other route. */
  function DrawerIcon(routeName: string, focused: bool): (icon: string)
    ensures routeName !in KnownRoutes ==> icon == FallbackIcon
  {
    match routeName
    case "Home" => if focused then "home" else "home-outline"
    case "About" => if focused then "information-circle" else "information-circle-outline"
    case "Sensores" => if focused then "speedometer" else "speedometer-outline"
    case "Mapa" => if focused then "map" else "map-outline"
    case "Reportes" => if focused then "document" else "document-outline"
    case _ => FallbackIcon
  }

  /** For every known route the unfocused icon is the focused one with the
      `-outline` suffix. */
  lemma OutlineWhenUnfocused(routeName: string)
    requires routeName in KnownRoutes
    ensures DrawerIcon(routeName, false) == DrawerIcon(routeName, true) + "-outline"
  {
  }

  /** A guest (or any role other than `admin`) sees only Home and About. */
  lemma NonAdminSeesHomeAndAbout(role: string)
    requires role != "" && role != "admin"
    ensures Shown(Some(role)) == Drawer([Home, About])
  {
  }

  /** Every screen the drawer can show has an icon of its own: none falls
      back to the alert icon. */
  lemma DrawerScreensHaveIcons(role: string, name: string, focused: bool)
    requires name in DrawerScreens(role)
    ensures DrawerIcon(name, focused) != FallbackIcon
  {
    assert name in KnownRoutes;
  }

  /** The app's root state. */
  class App {
    var role: Option<string>

    /** Initially nobody is logged in. */
    constructor ()
      ensures role == None && Shown(role) == LoginStack
    {
      role := None;
    }

    /** `handleLogin`: adopt the role verbatim. */
    method HandleLogin(newRole: Option<string>)
      modifies this
      ensures role == newRole
      ensures Shown(role) == if LoggedIn(newRole) then Drawer(DrawerScreens(newRole.value)) else LoginStack
    {
      role := newRole;
    }

    /** `handleLogout`: forget the role, which brings back the login stack. */
    method HandleLogout()
      modifies this
      ensures role == None && Shown(role) == LoginStack
    {
      role := None;
    }
  }
}

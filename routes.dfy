/** The route paths of the application and the metadata attached to them. */
module Routes {
  import opened Options

  const Login := "/login"
  const Register := "/register"
  const Dashboard := "/dashboard"
  const Profile := "/profile"
  const Settings := "/settings"
  const WellnessDashboard := "/wellness-dashboard"
  const ProviderDashboard := "/provider"
  const Home := "/"

  /** Every `ROUTES` value, in declaration order. */
  const Paths: seq<string> := [Login, Register, Dashboard, Profile, Settings, WellnessDashboard, ProviderDashboard, Home]

  datatype RouteMeta = RouteMeta(title: string, isPublic: bool, requiresAuth: Option<bool>)

  const Metadata: map<string, RouteMeta> := map[
    Login := RouteMeta("Login", true, None),
    Register := RouteMeta("Register", true, None),
    Dashboard := RouteMeta("Dashboard", false, Some(true)),
    Profile := RouteMeta("Profile", false, Some(true)),
    Settings := RouteMeta("Settings", false, Some(true)),
    WellnessDashboard := RouteMeta("Wellness Dashboard", false, Some(true)),
    ProviderDashboard := RouteMeta("Provider Dashboard", false, Some(true))
  ]

  /** No two route constants share a path. */
  lemma PathsDistinct()
    ensures forall i, j :: 0 <= i < j < |Paths| ==> Paths[i] != Paths[j]
  {
  }

  /**
   * Login and Register are the public routes and carry no `requiresAuth`; every other
   * entry is private and requires authentication; Home has no entry; every key is a path.
   */
  lemma MetadataConsistent()
    ensures forall p :: p in Metadata ==> p in Paths
    ensures Home !in Metadata
    ensures forall p :: p in Metadata ==> (Metadata[p].isPublic <==> p == Login || p == Register)
    ensures forall p :: p in Metadata ==> (Metadata[p].isPublic <==> Metadata[p].requiresAuth == None)
    ensures forall p :: p in Metadata && !Metadata[p].isPublic ==> Metadata[p].requiresAuth == Some(true)
  {
  }
}

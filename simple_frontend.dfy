/**
 * The path-to-page dispatch of the lazy-loading front end's `App` component.
 *
 * `App` receives the current path (what `usePath(ssrPath)` returns) and picks
 * exactly one page: any path starting with "/settings" gives the settings
 * page; otherwise the exact paths "/login" and "/inbox" give the login and
 * inbox pages; every other path gives the dashboard, the only page placed
 * inside the shared layout. Every page is lazily loaded behind a suspense
 * boundary.
 */
module SimpleFrontend {
  import opened Routes

  datatype Page = Settings | Login | Inbox | Dashboard

  const SettingsPrefix: string := "/settings"
  const LoginPath: string := "/login"
  const InboxPath: string := "/inbox"

  /**
   * The dispatch as the component writes it: a `startsWith` test first, then
   * a `switch` on the exact path whose default case wraps the dashboard in
   * the layout.
   */
  function App(path: string): (v: View<Page>)
    ensures v.inSuspense
    ensures v.withLayout <==> v.page == Dashboard
    ensures v.page == Settings <==> StartsWith(path, SettingsPrefix)
    ensures v.page == Login <==> path == LoginPath
    ensures v.page == Inbox <==> path == InboxPath
    ensures v.page == Dashboard <==>
              !StartsWith(path, SettingsPrefix) && path != LoginPath && path != InboxPath
  {
    if StartsWith(path, SettingsPrefix) then
      View(Settings, false, true)
    else if path == LoginPath then
      View(Login, false, true)
    else if path == InboxPath then
      View(Inbox, false, true)
    else
      View(Dashboard, true, true)
  }

  /**
   * The same dispatch written as an ordered route table with a default
   * binding: the `startsWith` binding, followed by the `switch` cases.
   */
  const SettingsRoute: Route<Page> := Route(Prefix(SettingsPrefix), Target(Settings, false))

  const SwitchRoutes: seq<Route<Page>> := [
    Route(Exact(LoginPath), Target(Login, false)),
    Route(Exact(InboxPath), Target(Inbox, false))
  ]

  const AppRoutes: seq<Route<Page>> := [SettingsRoute] + SwitchRoutes

  const DefaultRoute: Target<Page> := Target(Dashboard, true)

  /**
   * `App` is the first-match evaluation of its route table, default included.
   * A path the `startsWith` test rejects falls through to the `switch` cases,
   * whose matches are shifted past the settings binding.
   */
  lemma AppIsRouteTableDispatch(path: string)
    ensures App(path) == Dispatch(AppRoutes, DefaultRoute, path)
  {
    if StartsWith(path, SettingsPrefix) {
      assert Accepts(AppRoutes[0].matcher, path);
    } else {
      assert FirstMatch([SettingsRoute], path) == None;
      FirstMatchAppend([SettingsRoute], SwitchRoutes, path);
      if path == LoginPath {
        assert FirstMatch(SwitchRoutes, path) == Some(0);
      } else if path == InboxPath {
        assert FirstMatch(SwitchRoutes, path) == Some(1);
      } else {
        assert FirstMatch(SwitchRoutes, path) == None;
      }
    }
  }

  /** Paths the component's tests of `startsWith` and `switch` treat as stated. */
  lemma SampleResolutions()
    ensures App("/settings").page == Settings
    ensures App("/settings/profile").page == Settings
    ensures App("/settingsX").page == Settings
    ensures App("/login").page == Login
    ensures App("/login/").page == Dashboard
    ensures App("/login?x=1").page == Dashboard
    ensures App("/inbox").page == Inbox
    ensures App("/Inbox").page == Dashboard
    ensures App("").page == Dashboard
    ensures App("/").page == Dashboard && App("/").withLayout
  {
    assert StartsWith("/settingsX", SettingsPrefix);
    assert StartsWith("/settings/profile", SettingsPrefix);
    assert !StartsWith("/login/", SettingsPrefix) && "/login/" != LoginPath;
    assert "/login?x=1"[1] != SettingsPrefix[1] && "/login?x=1" != LoginPath;
    assert "/Inbox" != InboxPath;
  }
}

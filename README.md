# Route dispatch of the lazy-loading front end

This project models the client-side route selection of the `App` component in the
lazy-loading example front end. `App` takes the current path, as returned by
`usePath(ssrPath)`, and renders exactly one page. The checks run in this order:

1. A path that starts with `"/settings"` gives the settings page. This includes `"/settingsX"`, because the test is a plain `startsWith`.
2. Otherwise a `switch` compares the exact path: `"/login"` gives the login page and `"/inbox"` gives the inbox page.
3. Any other path, including `""`, gives the dashboard. The dashboard is the only page placed inside the shared `AppLayout` chrome.

Every page is a lazily loaded module rendered inside a `Suspense` boundary.

The model has two modules:

- `Routes` (routes.dfy) is a general ordered route table. Each binding has a prefix or exact matcher and a target page with a static layout flag. The first binding in table order whose matcher accepts the path wins. When no binding accepts, a default binding is used. `FirstMatch` returns the winning index, and `Dispatch` returns the rendered view.
- `SimpleFrontend` (simple_frontend.dfy) holds `App` written the way the component writes it: an `if` on `startsWith`, then the exact comparisons, then the default. `AppRoutes` (the settings binding followed by the `switch` cases, `SwitchRoutes`) and `DefaultRoute` are the same dispatch written as a route table. A lemma proves that `App` and `Dispatch` on that table agree for every path.

A rendered page is a `View(page, withLayout, inSuspense)`. Lazy loading appears only as the `inSuspense` flag. The path is a parameter of `App`, since `usePath` is not part of this model. Dafny functions are deterministic, so equal paths always give equal views; `App` depends on nothing but the path.

## Model

| member | source | states |
|---|---|---|
| SimpleFrontend.App | src/chapter9-advanced-lazy-loading/simple-frontend/App.tsx:35-85 | Exactly one page is chosen for every path, including "". Settings is chosen iff the path starts with "/settings". Login is chosen iff the path is exactly "/login", and Inbox iff it is exactly "/inbox". Dashboard is chosen iff none of these hold. Only the Dashboard view has the layout, and every view is inside a suspense boundary. |
| SimpleFrontend.AppIsRouteTableDispatch | src/chapter9-advanced-lazy-loading/simple-frontend/App.tsx:51-84 | For every path, `App` equals first-match evaluation of the table [prefix "/settings", exact "/login", exact "/inbox"] with the layout-wrapped Dashboard as the default. |
| SimpleFrontend.SampleResolutions | src/chapter9-advanced-lazy-loading/simple-frontend/App.tsx:51-83 | "/settings", "/settings/profile" and "/settingsX" give Settings. "/login" gives Login, but "/login/" and "/login?x=1" give Dashboard. "/inbox" gives Inbox, but "/Inbox" gives Dashboard. "" and "/" give the Dashboard inside the layout. |
| Routes.FirstMatch | src/chapter9-advanced-lazy-loading/simple-frontend/App.tsx:51-72 | The index returned is a binding whose matcher accepts the path, and no earlier binding accepts it. None is returned iff no binding accepts the path. |
| Routes.Dispatch | src/chapter9-advanced-lazy-loading/simple-frontend/App.tsx:51-84 | The view is the target of the first accepting binding, or the default target when no binding accepts. It is always inside a suspense boundary. |
| Routes.PrefixShadowsLaterExact | src/chapter9-advanced-lazy-loading/simple-frontend/App.tsx:51-59 | If a prefix binding comes before an exact binding whose path it accepts, then that exact path always resolves through the prefix binding or an earlier one, never through the exact binding. So a `case` for a "/settings/…" path added to the `switch` would be dead code. |
| Routes.FirstMatchAppend | src/chapter9-advanced-lazy-loading/simple-frontend/App.tsx:59-84 | Adding bindings after a table never changes the choice for a path the table already resolves. A path the table does not resolve goes to the first accepting appended binding, with its index shifted by the table's length. `AppIsRouteTableDispatch` uses this to pass a path that fails the `startsWith` test on to the `switch` cases. |

## Left out

- `usePath` and `useNavigate`: the client-router module is not part of this model. This covers how the path is derived, how `ssrPath` overrides it, and history and subscriber updates. The path is a parameter of `App` instead.
- React `lazy` and `Suspense` internals: module caching, asynchronous loading, fallback timing and discarding stale loads are framework behaviour. Only the fact that each page sits behind a suspense boundary is modelled, as `View.inSuspense`.
- The render state machine (pending, resolved, stale results) and loader memoization: they live in React's runtime, not in the repository's code.
- The nesting of `AppLayout` and `Suspense`: for the dashboard, the layout sits outside the suspense boundary, so it stays visible while the page loads. The other pages' boundaries have no `fallback`, so nothing is shown while they load. `View` records `withLayout` and `inSuspense` as two independent flags and does not capture this order.
- The page components and `AppLayout`: they are opaque. They appear only as the `Page` values and the `withLayout` flag.
- `Link` (frontend/utils/link.tsx): a thin wrapper that calls `preventDefault` and the unseen `navigate` when `href` is set. Its behaviour is DOM event semantics, and its preloading map is commented out.
- The dashboard page markup (frontend/pages/dashboard-with-layout.tsx): static presentation whose data comes from a module that is not part of this model.
- The commented-out eager-import version of `App`: it is inactive.

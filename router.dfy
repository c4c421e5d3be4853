/**
 * The client-side router (app.js:52-75, 198-199, 820-826): `routes[path] || NotFound`, with the
 * four workspace pages wrapped in `AppShell`, which shows the home page behind the sign-in
 * dialog when nobody is signed in.
 */
module Router {
  /** The pages a workspace shell can hold. */
  datatype View = DashboardView | BuilderView | PricingView | SupportView

  /** What `routes` maps a path to. */
  datatype Page = Home | AppShell(view: View) | Privacy | Terms | NotFound

  const ROUTES: map<string, Page> := map[
    "/" := Home,
    "/app/dashboard" := AppShell(DashboardView),
    "/app/builder" := AppShell(BuilderView),
    "/app/pricing" := AppShell(PricingView),
    "/app/support" := AppShell(SupportView),
    "/privacy" := Privacy,
    "/terms" := Terms]

  /** `routes[path] || NotFound` */
  function Resolve(path: string): Page {
    if path in ROUTES then ROUTES[path] else NotFound
  }

  /** What ends up on screen: the page's content, and whether the sign-in dialog is open. */
  datatype Screen = Screen(content: Page, authDialog: bool)

  /** `fn()` for the resolved page; `AppShell` calls `requireAuth()` first. */
  function Render(path: string, signedIn: bool): Screen {
    match Resolve(path)
    case AppShell(v) => if signedIn then Screen(AppShell(v), false) else Screen(Home, true)
    case p => Screen(p, false)
  }

  /** Every path the table names resolves to its page, and every other path to `NotFound`; the
      workspace pages are exactly the table's `/app/` paths. */
  lemma ResolveSpec(path: string)
    ensures Resolve(path) == NotFound <==> path !in ROUTES
    ensures Resolve(path).AppShell? ==> |path| >= 5 && path[..5] == "/app/"
    ensures path in ROUTES && |path| >= 5 && path[..5] == "/app/" ==> Resolve(path).AppShell?
    ensures Resolve("/app/builder") == AppShell(BuilderView)
    ensures Resolve("/app/dashboard") == AppShell(DashboardView)
  {
    if path in ROUTES {
      assert path == "/" || path == "/privacy" || path == "/terms" || path == "/app/dashboard"
          || path == "/app/builder" || path == "/app/pricing" || path == "/app/support";
      assert "/privacy"[..5] == "/priv" && "/terms"[..5] == "/term";
    }
  }

  /** The dialog opens exactly for a workspace path without a signed-in user, and then the home
      page is shown behind it; a workspace page is shown only to a signed-in user; every other
      page renders the same signed in or not. */
  lemma RenderSpec(path: string, signedIn: bool)
    ensures Render(path, signedIn).authDialog <==> Resolve(path).AppShell? && !signedIn
    ensures Render(path, signedIn).authDialog ==> Render(path, signedIn).content == Home
    ensures Render(path, signedIn).content.AppShell? <==> Resolve(path).AppShell? && signedIn
    ensures !Resolve(path).AppShell? ==> Render(path, signedIn) == Render(path, !signedIn)
    ensures !Render(path, signedIn).authDialog ==> Render(path, signedIn).content == Resolve(path)
  {
  }
}

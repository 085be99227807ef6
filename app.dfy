/**
 * The application shell (src/App.tsx) and the route guard
 * (components/PrivateRoute.tsx): the header title chosen from the path,
 * the spinner shown until initialization ends, and the three-way
 * decision of the guard.
 */
module App {
  import opened Types
  import Text
  import Reducer

  const OrdersTitle: string := "Órdenes de Trabajo"
  const ClientsTitle: string := "Clientes"
  const ProductsTitle: string := "Productos"
  const SuppliersTitle: string := "Proveedores"
  const FinancialsTitle: string := "Finanzas"
  const DashboardTitle: string := "Dashboard"

  /** The tested prefixes, in order, and the title each one selects. */
  const Prefixes: seq<string> := ["/orders", "/clients", "/products", "/suppliers", "/financials"]
  const Titles: seq<string> := [OrdersTitle, ClientsTitle, ProductsTitle, SuppliersTitle, FinancialsTitle]

  /** The first prefix the path starts with is the one at `i`. */
  predicate FirstMatch(pathname: string, i: int)
  {
    0 <= i < |Prefixes| && Text.StartsWith(pathname, Prefixes[i])
    && forall j :: 0 <= j < i ==> !Text.StartsWith(pathname, Prefixes[j])
  }

  /**
   * `getHeaderTitle`: the title of the first prefix the path starts with,
   * tested in the order orders, clients, products, suppliers, financials;
   * "Dashboard" when none matches.
   */
  function HeaderTitle(pathname: string): (title: string)
    ensures forall i :: FirstMatch(pathname, i) ==> title == Titles[i]
    ensures title == DashboardTitle <==> forall i :: 0 <= i < |Prefixes| ==> !Text.StartsWith(pathname, Prefixes[i])
  {
    assert DashboardTitle !in Titles by {
      assert ProductsTitle[0] != DashboardTitle[0];
    }
    if Text.StartsWith(pathname, Prefixes[0]) then Titles[0]
    else if Text.StartsWith(pathname, Prefixes[1]) then Titles[1]
    else if Text.StartsWith(pathname, Prefixes[2]) then Titles[2]
    else if Text.StartsWith(pathname, Prefixes[3]) then Titles[3]
    else if Text.StartsWith(pathname, Prefixes[4]) then Titles[4]
    else DashboardTitle
  }

  /** The root and a nested order path. */
  lemma HeaderTitleExamples()
    ensures HeaderTitle("/") == DashboardTitle
    ensures HeaderTitle("/orders/123") == OrdersTitle
    ensures HeaderTitle("/financials") == FinancialsTitle
  {
    assert !Text.StartsWith("/", "/orders");
    assert "/orders/123"[..|"/orders"|] == "/orders";
    assert "/financials"[..|"/financials"|] == "/financials";
    assert "/financials"[..|"/orders"|] != "/orders" by { assert "/financials"[1] != "/orders"[1]; }
    assert "/financials"[..|"/clients"|] != "/clients" by { assert "/financials"[1] != "/clients"[1]; }
    assert "/financials"[..|"/products"|] != "/products" by { assert "/financials"[1] != "/products"[1]; }
    assert "/financials"[..|"/suppliers"|] != "/suppliers" by { assert "/financials"[1] != "/suppliers"[1]; }
  }

  /** What `App` renders. */
  datatype Screen = Spinner | Routes

  function AppScreen(s: AppState): (screen: Screen)
    ensures screen == Spinner <==> !s.isInitialized
  {
    if !s.isInitialized then Spinner else Routes
  }

  /** The app starts on the spinner, and once past it never returns to it, whatever is dispatched. */
  lemma SpinnerOnlyBeforeInitialization(s: AppState, actions: seq<Action>)
    ensures AppScreen(Reducer.InitialState()) == Spinner
    ensures AppScreen(s) == Routes ==> AppScreen(Reducer.ReduceAll(s, actions)) == Routes
  {
    if s.isInitialized {
      Reducer.InitializedStaysSet(s, actions);
    }
  }

  /** What `PrivateRoute` renders. */
  datatype Guard = Loading | RedirectToLogin | RenderChildren

  /** Loading until initialized, then the login redirect or the protected page. */
  function PrivateRoute(s: AppState): (g: Guard)
    ensures g == Loading <==> !s.isInitialized
    ensures g == RedirectToLogin <==> s.isInitialized && !s.isAuthenticated
    ensures g == RenderChildren <==> s.isInitialized && s.isAuthenticated
  {
    if !s.isInitialized then Loading
    else if !s.isAuthenticated then RedirectToLogin
    else RenderChildren
  }

  /**
   * After a logout the guard sends to the login page; after an
   * authentication error on an initialized app as well; a login on an
   * initialized app opens the protected pages.
   */
  lemma GuardAfterSessionActions(s: AppState, session: Session, message: string)
    ensures PrivateRoute(Reducer.Reduce(s, Logout)) == RedirectToLogin
    ensures s.isInitialized ==> PrivateRoute(Reducer.Reduce(s, AuthError(message))) == RedirectToLogin
    ensures s.isInitialized ==> PrivateRoute(Reducer.Reduce(s, LoginSuccess(session))) == RenderChildren
  {
  }
}

/**
 * An ordered route table: bindings are evaluated top to bottom and the first
 * binding whose matcher accepts the current path wins; when none accepts, a
 * designated default binding is used, so resolution never fails.
 *
 * This is the general reading of the dispatch written out by hand in `App`
 * (module SimpleFrontend); there it is the reference definition that `App`
 * is proved to agree with.
 */
module Routes {

  datatype Option<+T> = None | Some(value: T)

  /** How a binding tests the path: a `startsWith` test or an exact comparison. */
  datatype Matcher = Prefix(prefix: string) | Exact(path: string)

  /**
   * What a binding renders: a lazily loaded page, and whether it is placed
   * inside the shared layout chrome (a static flag of the binding).
   */
  datatype Target<P> = Target(page: P, withLayout: bool)

  datatype Route<P> = Route(matcher: Matcher, target: Target<P>)

  /**
   * What the router renders for a path: the chosen page, whether the layout
   * chrome surrounds it, and whether the page sits behind a suspense
   * boundary (it is loaded lazily; the boundary has no fallback, so nothing
   * is shown in its place until the page has loaded).
   */
  datatype View<P> = View(page: P, withLayout: bool, inSuspense: bool)

  /** JavaScript's `s.startsWith(prefix)`: the first |prefix| characters of s are prefix. */
  predicate StartsWith(s: string, prefix: string)
  {
    |prefix| <= |s| && s[..|prefix|] == prefix
  }

  predicate Accepts(m: Matcher, path: string)
  {
    match m
    case Prefix(p) => StartsWith(path, p)
    case Exact(q) => path == q
  }

  /** Every lazily loaded page is rendered inside a suspense boundary. */
  function Render<P>(t: Target<P>): View<P>
  {
    View(t.page, t.withLayout, true)
  }

  /**
   * The index of the binding that wins for `path`: the first one, in table
   * order, whose matcher accepts it; None when no binding accepts.
   */
  function FirstMatch<P>(routes: seq<Route<P>>, path: string): (r: Option<nat>)
    ensures r.Some? ==> r.value < |routes| && Accepts(routes[r.value].matcher, path)
    ensures r.Some? ==> forall j :: 0 <= j < r.value ==> !Accepts(routes[j].matcher, path)
    ensures r.None? <==> forall j :: 0 <= j < |routes| ==> !Accepts(routes[j].matcher, path)
  {
    if routes == [] then None
    else if Accepts(routes[0].matcher, path) then Some(0)
    else match FirstMatch(routes[1..], path)
      case None => None
      case Some(k) => Some(k + 1)
  }

  /** The view for `path`: the first accepting binding's target, else the default. */
  function Dispatch<P>(routes: seq<Route<P>>, default: Target<P>, path: string): (v: View<P>)
    ensures v.inSuspense
    ensures (forall j :: 0 <= j < |routes| ==> !Accepts(routes[j].matcher, path)) ==> v == Render(default)
    ensures forall i :: 0 <= i < |routes| && Accepts(routes[i].matcher, path) &&
                        (forall j :: 0 <= j < i ==> !Accepts(routes[j].matcher, path)) ==>
                        v == Render(routes[i].target)
  {
    match FirstMatch(routes, path)
    case None => Render(default)
    case Some(i) => Render(routes[i].target)
  }

  /**
   * Evaluation is ordered, so a prefix binding placed before an exact binding
   * that it also accepts shadows it: the exact binding is never the one chosen
   * for its own path, and that path resolves through an earlier binding.
   */
  lemma PrefixShadowsLaterExact<P>(routes: seq<Route<P>>, i: nat, j: nat)
    requires i < j < |routes|
    requires routes[i].matcher.Prefix? && routes[j].matcher.Exact?
    requires StartsWith(routes[j].matcher.path, routes[i].matcher.prefix)
    ensures FirstMatch(routes, routes[j].matcher.path).Some?
    ensures FirstMatch(routes, routes[j].matcher.path).value <= i
  {
  }

  /**
   * Appending bindings at the end of the table never changes the binding
   * chosen for a path that the original table already resolves, and a path
   * the original table does not resolve is resolved by the appended part.
   */
  lemma {:induction false} FirstMatchAppend<P>(routes: seq<Route<P>>, more: seq<Route<P>>, path: string)
    ensures FirstMatch(routes, path).Some? ==> FirstMatch(routes + more, path) == FirstMatch(routes, path)
    ensures FirstMatch(routes, path).None? ==>
              match FirstMatch(more, path)
              case None => FirstMatch(routes + more, path).None?
              case Some(k) => FirstMatch(routes + more, path) == Some(|routes| + k)
  {
    if routes == [] {
      assert routes + more == more;
    } else {
      var all := routes + more;
      assert all[0] == routes[0];
      if !Accepts(routes[0].matcher, path) {
        assert all[1..] == routes[1..] + more;
        FirstMatchAppend(routes[1..], more, path);
      }
    }
  }
}

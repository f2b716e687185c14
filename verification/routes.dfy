/** `Screen`: the navigation routes, and the detail route built from a fix id. */
module Routes {
  import opened Wrappers
  import opened Text

  datatype Screen = Home | Results | Profile | PastFixes | ContactPro | PastFixDetail | ExpertOnboarding

  const HOME: string := "home"
  const RESULTS: string := "results"
  const PROFILE: string := "profile"
  const PAST_FIXES: string := "past_fixes"
  const CONTACT_PRO: string := "contact_pro"
  const DETAIL_PREFIX: string := "past_fix_detail/"
  const FIX_ID_PLACEHOLDER: string := "{fixId}"
  const PAST_FIX_DETAIL: string := DETAIL_PREFIX + FIX_ID_PLACEHOLDER
  const EXPERT_ONBOARDING: string := "expert_onboarding"

  /** The route string each screen is registered under. */
  function Route(s: Screen): string {
    match s
    case Home => HOME
    case Results => RESULTS
    case Profile => PROFILE
    case PastFixes => PAST_FIXES
    case ContactPro => CONTACT_PRO
    case PastFixDetail => PAST_FIX_DETAIL
    case ExpertOnboarding => EXPERT_ONBOARDING
  }

  /** A navigation request issued by a screen callback. */
  datatype NavAction =
    | Navigate(route: string)
    | PopBack
    | PopTo(route: string, inclusive: bool)

  /** The seven route strings are pairwise distinct, so a route names one screen. */
  lemma RoutesDistinct(a: Screen, b: Screen)
    ensures Route(a) == Route(b) <==> a == b
  {
  }

  /**
   * Every occurrence of `ph` in `t` replaced by `v`, scanning left to right:
   * how a route template becomes a concrete route.
   */
  function Substitute(t: string, ph: string, v: string): (r: string)
    requires ph != []
    decreases |t|
  {
    if |t| >= |ph| && t[..|ph|] == ph then v + Substitute(t[|ph|..], ph, v)
    else if t == [] then []
    else [t[0]] + Substitute(t[1..], ph, v)
  }

  /** A text without `{` passes through substitution of a `{`-led placeholder unchanged. */
  lemma {:induction false} SubstituteSuffix(p: string, ph: string, v: string)
    requires ph != [] && ph[0] == '{'
    requires forall i | 0 <= i < |p| :: p[i] != '{'
    ensures Substitute(p + ph, ph, v) == p + v
    decreases |p|
  {
    if p == [] {
      assert (p + ph)[..|ph|] == ph;
      assert (p + ph)[|ph|..] == [];
    } else {
      assert (p + ph)[0] != ph[0];
      assert (p + ph)[1..] == p[1..] + ph;
      SubstituteSuffix(p[1..], ph, v);
    }
  }

  /** `PastFixDetail.createRoute(fixId)`. */
  function CreateRoute(id: Long): (r: string)
    ensures r == Substitute(PAST_FIX_DETAIL, FIX_ID_PLACEHOLDER, IntText(id))
  {
    SubstituteSuffix(DETAIL_PREFIX, FIX_ID_PLACEHOLDER, IntText(id));
    DETAIL_PREFIX + IntText(id)
  }

  /**
   * The navigation library's match of a concrete route against the detail
   * template: the prefix, then a segment read as a `Long`.
   */
  function MatchDetailRoute(route: string): (r: Option<Long>)
    ensures r.Some? ==> |route| > |DETAIL_PREFIX| && route[..|DETAIL_PREFIX|] == DETAIL_PREFIX
  {
    if |route| >= |DETAIL_PREFIX| && route[..|DETAIL_PREFIX|] == DETAIL_PREFIX then
      match ParseInteger(route[|DETAIL_PREFIX|..], LONG_MIN, LONG_MAX)
      case Some(v) => Some(v as Long)
      case None => None
    else None
  }

  /** The id segment of a created route reads back as the id. */
  lemma DetailRouteRoundTrip(id: Long)
    ensures MatchDetailRoute(CreateRoute(id)) == Some(id)
  {
    var r := CreateRoute(id);
    assert r[..|DETAIL_PREFIX|] == DETAIL_PREFIX;
    assert r[|DETAIL_PREFIX|..] == IntText(id);
    IntTextRoundTrip(id, LONG_MIN, LONG_MAX);
  }

  /** No created detail route equals the route of any screen, the template included. */
  lemma CreatedRouteIsNoScreenRoute(id: Long, s: Screen)
    ensures CreateRoute(id) != Route(s)
  {
    var r := CreateRoute(id);
    IntTextHasNoSpace(id);
    var n := IntText(id);
    if s == PastFixDetail {
      assert n[0] == '-' || IsDigit(n[0]) by {
        var a: int := id;
        var m := NatText(if a < 0 then -a else a);
        assert IsDigit(m[0]);
      }
      assert r[|DETAIL_PREFIX|] == n[0];
      assert Route(s)[|DETAIL_PREFIX|] == '{';
    } else {
      assert r[..|DETAIL_PREFIX|] == DETAIL_PREFIX;
    }
  }
}

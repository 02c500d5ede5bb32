/** The edge middleware that gates every matched request on the presence of a
    session token (middleware.ts).  The token itself is reduced to whether
    `getToken` returned a value; the decision is a pure function of that flag
    and the request pathname, and a redirect is a structured value instead of
    an encoded URL. */
module Middleware {
  import opened Wrappers

  /** What the middleware answers: forward the request (`NextResponse.next()`)
      or redirect to `target`, optionally carrying the original pathname as
      the `callbackUrl` query parameter. */
  datatype Decision = Next | Redirect(target: string, callback: Option<string>)

  const Root: string := "/"
  const DashboardRoot: string := "/dashboard"
  const SettingsRoot: string := "/settings"
  const AuthRoot: string := "/auth"
  const SignIn: string := "/auth/signin"

  /** The prefixes the middleware treats as requiring authentication. */
  const ProtectedPaths: seq<string> := [DashboardRoot, SettingsRoot]

  /** JavaScript's `String.prototype.startsWith`: a raw character prefix test,
      with no notion of path segments. */
  predicate StartsWith(s: string, prefix: string) {
    |prefix| <= |s| && s[..|prefix|] == prefix
  }

  /** Some protected prefix is a raw prefix of the path (the `isProtectedPath`
      flag of the middleware). */
  predicate IsProtectedPath(path: string) {
    exists i :: 0 <= i < |ProtectedPaths| && StartsWith(path, ProtectedPaths[i])
  }

  /** The middleware's ordered rules; the first one that applies decides. */
  function Decide(hasToken: bool, path: string): (d: Decision)
    ensures d.Redirect? ==> d.target == (if hasToken then DashboardRoot else SignIn)
    ensures d.Redirect? && d.callback.Some? ==>
              !hasToken && path != Root && IsProtectedPath(path) && d.callback.value == path
    ensures !hasToken && d.Redirect? ==> path == Root || IsProtectedPath(path)
    ensures hasToken && d.Redirect? ==> path == Root || StartsWith(path, AuthRoot)
  {
    if path == Root then
      if hasToken then Redirect(DashboardRoot, None) else Redirect(SignIn, None)
    else if IsProtectedPath(path) && !hasToken then
      Redirect(SignIn, Some(path))
    else if hasToken && StartsWith(path, AuthRoot) then
      Redirect(DashboardRoot, None)
    else
      Next
  }

  // ---------------------------------------------------------------------------
  // The route matcher

  /** A Next.js matcher entry `base/:path*`: the base itself, or the base
      followed by further segments.  This is an assumed reading of the
      framework's pattern semantics, not a model of path-to-regexp. */
  predicate MatchesWildcard(path: string, base: string) {
    path == base || StartsWith(path, base + "/")
  }

  /** `config.matcher`: the paths for which the middleware runs at all. */
  predicate MatcherAccepts(path: string) {
    || path == Root
    || MatchesWildcard(path, DashboardRoot)
    || MatchesWildcard(path, SettingsRoot)
    || MatchesWildcard(path, AuthRoot)
  }

  /** The whole edge gate: unmatched paths never reach the middleware and are
      forwarded unchanged.  On matched paths it applies the per-class policy
      to segment-granular classes, and it only ever redirects matched paths,
      to the dashboard or to sign-in. */
  function Gate(hasToken: bool, path: string): (d: Decision)
    ensures !MatcherAccepts(path) ==> d == Next
    ensures MatcherAccepts(path) ==> d == Decide(hasToken, path)
    ensures MatcherAccepts(path) ==> d == Policy(hasToken, SegmentClassify(path), path)
    ensures d.Redirect? ==> MatcherAccepts(path) && d.target in {DashboardRoot, SignIn}
  {
    if MatcherAccepts(path) then
      MatchedPathsFollowSegmentPolicy(hasToken, path);
      Decide(hasToken, path)
    else
      Next
  }

  // ---------------------------------------------------------------------------
  // A reference rule table over path classes

  /** The classes of paths the rules distinguish. */
  datatype PathClass = RootPath | Protected | AuthFlow | Public

  /** Classification by prefix, independent of the token. */
  function Classify(path: string): PathClass {
    if path == Root then RootPath
    else if StartsWith(path, DashboardRoot) || StartsWith(path, SettingsRoot) then Protected
    else if StartsWith(path, AuthRoot) then AuthFlow
    else Public
  }

  /** Classification by whole path segments: a root counts only when the
      path is the root itself or continues with `/`. */
  function SegmentClassify(path: string): PathClass {
    if path == Root then RootPath
    else if MatchesWildcard(path, DashboardRoot) || MatchesWildcard(path, SettingsRoot) then Protected
    else if MatchesWildcard(path, AuthRoot) then AuthFlow
    else Public
  }

  /** The access policy, stated per class and token state rather than as an
      ordered rule list. */
  function Policy(hasToken: bool, cls: PathClass, path: string): Decision {
    match cls
    case RootPath => if hasToken then Redirect(DashboardRoot, None) else Redirect(SignIn, None)
    case Protected => if hasToken then Next else Redirect(SignIn, Some(path))
    case AuthFlow => if hasToken then Redirect(DashboardRoot, None) else Next
    case Public => Next
  }

  /** No protected prefix is also an auth prefix, so the protected and the
      auth rule never compete for the same path. */
  lemma ProtectedIsNotAuth(path: string)
    requires IsProtectedPath(path)
    ensures !StartsWith(path, AuthRoot)
    ensures path != Root
  {
    var i :| 0 <= i < |ProtectedPaths| && StartsWith(path, ProtectedPaths[i]);
    assert path[1] == ProtectedPaths[i][1];
  }

  /** The protected-path test is exactly the two raw prefix tests. */
  lemma ProtectedPathsAreDashboardAndSettings(path: string)
    ensures IsProtectedPath(path) <==> StartsWith(path, DashboardRoot) || StartsWith(path, SettingsRoot)
  {
    if StartsWith(path, DashboardRoot) {
      assert StartsWith(path, ProtectedPaths[0]);
    }
    if StartsWith(path, SettingsRoot) {
      assert StartsWith(path, ProtectedPaths[1]);
    }
  }

  /** The ordered rules of the middleware agree with the per-class policy on
      every path and token state: the ordered reading and the per-class
      reading never disagree. */
  lemma DecideFollowsPolicy(hasToken: bool, path: string)
    ensures Decide(hasToken, path) == Policy(hasToken, Classify(path), path)
  {
    ProtectedPathsAreDashboardAndSettings(path);
    if IsProtectedPath(path) {
      ProtectedIsNotAuth(path);
    }
  }

  // ---------------------------------------------------------------------------
  // The individual rules

  /** The root path always redirects, to the dashboard with a token and to
      sign-in (without a callback) without one. */
  lemma RootRedirects()
    ensures Decide(true, Root) == Redirect(DashboardRoot, None)
    ensures Decide(false, Root) == Redirect(SignIn, None)
  {
  }

  /** A protected path without a token goes to sign-in with the original
      pathname as callback. */
  lemma ProtectedWithoutTokenRedirectsWithCallback(path: string)
    requires StartsWith(path, DashboardRoot) || StartsWith(path, SettingsRoot)
    ensures Decide(false, path) == Redirect(SignIn, Some(path))
  {
    ProtectedPathsAreDashboardAndSettings(path);
    ProtectedIsNotAuth(path);
  }

  /** A protected path with a token is forwarded. */
  lemma ProtectedWithTokenPasses(path: string)
    requires StartsWith(path, DashboardRoot) || StartsWith(path, SettingsRoot)
    ensures Decide(true, path) == Next
  {
    ProtectedPathsAreDashboardAndSettings(path);
    ProtectedIsNotAuth(path);
  }

  /** An auth page with a token redirects to the dashboard. */
  lemma AuthWithTokenRedirectsToDashboard(path: string)
    requires StartsWith(path, AuthRoot)
    ensures Decide(true, path) == Redirect(DashboardRoot, None)
  {
  }

  /** An auth page without a token is forwarded. */
  lemma AuthWithoutTokenPasses(path: string)
    requires StartsWith(path, AuthRoot)
    ensures Decide(false, path) == Next
  {
    if IsProtectedPath(path) {
      ProtectedIsNotAuth(path);
    }
  }

  /** No redirect loop: following a redirect with the same token state
      reaches a page the middleware forwards, both through the bare rules and
      through the matcher-gated middleware. */
  lemma NoRedirectLoop(hasToken: bool, path: string)
    requires Decide(hasToken, path).Redirect?
    ensures Decide(hasToken, Decide(hasToken, path).target) == Next
    ensures Gate(hasToken, Decide(hasToken, path).target) == Next
  {
    var target := Decide(hasToken, path).target;
    if hasToken {
      assert target == DashboardRoot;
      assert !StartsWith(target, AuthRoot) by {
        assert target[1] != AuthRoot[1];
      }
    } else {
      assert target == SignIn;
      assert !IsProtectedPath(target) by {
        if IsProtectedPath(target) {
          ProtectedIsNotAuth(target);
          assert StartsWith(target, AuthRoot);
          assert false;
        }
      }
    }
  }

  /** The raw prefix test is not segment-granular: `/dashboardx` is treated as
      protected.  The matcher keeps such paths from reaching the middleware. */
  lemma RawPrefixIsNotSegmentGranular()
    ensures Decide(false, "/dashboardx") == Redirect(SignIn, Some("/dashboardx"))
    ensures !MatcherAccepts("/dashboardx")
    ensures Gate(false, "/dashboardx") == Next
  {
    var p := "/dashboardx";
    assert StartsWith(p, ProtectedPaths[0]);
    assert p[10] != (DashboardRoot + "/")[10];
    assert p[1] != SettingsRoot[1] && p[1] != AuthRoot[1];
  }

  /** On every path the matcher admits, the raw prefix test coincides with
      segment-granular matching of the protected roots. */
  lemma MatchedPathsClassifyBySegment(path: string)
    requires MatcherAccepts(path)
    ensures IsProtectedPath(path) <==>
              MatchesWildcard(path, DashboardRoot) || MatchesWildcard(path, SettingsRoot)
  {
    ProtectedPathsAreDashboardAndSettings(path);
    if MatchesWildcard(path, DashboardRoot) {
      assert path[..|DashboardRoot|] == DashboardRoot;
    }
    if MatchesWildcard(path, SettingsRoot) {
      assert path[..|SettingsRoot|] == SettingsRoot;
    }
    if path == Root {
      assert !IsProtectedPath(path) by {
        if IsProtectedPath(path) { ProtectedIsNotAuth(path); }
      }
    }
    if MatchesWildcard(path, AuthRoot) {
      assert StartsWith(path, AuthRoot);
      assert !IsProtectedPath(path) by {
        if IsProtectedPath(path) { ProtectedIsNotAuth(path); }
      }
    }
  }

  /** On matched paths the raw prefix classes coincide with the segment
      classes, so the middleware applies the per-class policy to them. */
  lemma MatchedPathsFollowSegmentPolicy(hasToken: bool, path: string)
    requires MatcherAccepts(path)
    ensures Decide(hasToken, path) == Policy(hasToken, SegmentClassify(path), path)
  {
    DecideFollowsPolicy(hasToken, path);
    MatchedPathsClassifyBySegment(path);
    ProtectedPathsAreDashboardAndSettings(path);
    if MatchesWildcard(path, AuthRoot) {
      assert path[..|AuthRoot|] == AuthRoot;
    }
    assert Classify(path) == SegmentClassify(path);
  }

  /** The settings example: a nested settings page without a token goes to
      sign-in carrying its own path. */
  lemma SettingsBillingExample()
    ensures Gate(false, "/settings/billing") == Redirect(SignIn, Some("/settings/billing"))
  {
    assert StartsWith("/settings/billing", SettingsRoot + "/");
    ProtectedWithoutTokenRedirectsWithCallback("/settings/billing");
  }
}

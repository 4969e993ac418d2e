/** The request router (proxy.ts): framework assets, files and API routes pass
    through; any host other than the two local main-app hosts is a storefront
    and is rewritten under a path segment named after the host; on the main
    app, dashboard paths need a signed-in user. Whether the session has a user
    is the parameter `signedIn`. */
module Proxy {
  import opened Common

  /** What the router answers. */
  datatype Decision =
    | Next                      // NextResponse.next()
    | Rewrite(path: string)     // NextResponse.rewrite(new URL(path, request.url))
    | Redirect(path: string)    // NextResponse.redirect(new URL(path, request.url))

  /** The Host header, `''` when it is missing. */
  function HostOf(header: Option<string>): string
  {
    if header.Some? then header.value else ""
  }

  /** Paths left alone before any host or session check. */
  predicate IsPassThrough(pathname: string)
  {
    StartsWith(pathname, "/_next") || '.' in pathname || StartsWith(pathname, "/api")
  }

  /** Every host except the two main-app hosts is a storefront. */
  predicate IsStore(hostname: string)
  {
    hostname != "localhost:3000" && hostname != "127.0.0.1:3000"
  }

  /** `proxy(request)` */
  function Route(hostHeader: Option<string>, pathname: string, signedIn: bool): (d: Decision)
    ensures IsPassThrough(pathname) ==> d == Next
    ensures d.Rewrite? <==> !IsPassThrough(pathname) && IsStore(HostOf(hostHeader))
    ensures d.Rewrite? ==> d.path == "/" + HostOf(hostHeader) + pathname
    ensures d.Redirect? ==> d.path == "/login"
  {
    var hostname := HostOf(hostHeader);
    if IsPassThrough(pathname) then Next
    else if IsStore(hostname) then Rewrite("/" + hostname + pathname)
    else if StartsWith(pathname, "/dashboard") && !signedIn then Redirect("/login")
    else Next
  }

  /** Asset, file and API paths pass through whatever the host and session. */
  lemma PassThroughFirst(hostHeader: Option<string>, pathname: string, signedIn: bool)
    requires IsPassThrough(pathname)
    ensures Route(hostHeader, pathname, signedIn) == Next
  {
  }

  /** Outside the pass-through paths, a request is rewritten exactly when its
      host is a storefront, and then the session plays no part. */
  lemma RewriteIffStore(hostHeader: Option<string>, pathname: string, signedIn: bool)
    requires !IsPassThrough(pathname)
    ensures Route(hostHeader, pathname, signedIn).Rewrite? <==> IsStore(HostOf(hostHeader))
    ensures IsStore(HostOf(hostHeader)) ==> Route(hostHeader, pathname, signedIn) == Route(hostHeader, pathname, !signedIn)
  {
  }

  /** A rewrite target starts with `/` and ends with the original path. */
  lemma RewriteShape(hostHeader: Option<string>, pathname: string, signedIn: bool)
    requires Route(hostHeader, pathname, signedIn).Rewrite?
    ensures var path := Route(hostHeader, pathname, signedIn).path;
      && |path| == 1 + |HostOf(hostHeader)| + |pathname|
      && path[0] == '/'
      && path[|path| - |pathname|..] == pathname
  {
    var path := Route(hostHeader, pathname, signedIn).path;
    assert path == "/" + HostOf(hostHeader) + pathname;
  }

  /** A missing Host header counts as a storefront with an empty name. */
  lemma MissingHostIsStore(pathname: string, signedIn: bool)
    requires !IsPassThrough(pathname)
    ensures Route(None, pathname, signedIn) == Rewrite("/" + pathname)
  {
  }

  /** A redirect happens exactly for a main-app request under the `/dashboard`
      prefix without a user, and it always goes to `/login`; every other
      main-app request passes through. */
  lemma RedirectIff(hostHeader: Option<string>, pathname: string, signedIn: bool)
    ensures var d := Route(hostHeader, pathname, signedIn);
      && (d.Redirect? <==> !IsPassThrough(pathname) && !IsStore(HostOf(hostHeader))
                           && StartsWith(pathname, "/dashboard") && !signedIn)
      && (d.Redirect? ==> d.path == "/login")
      && (!IsStore(HostOf(hostHeader)) && !d.Redirect? ==> d == Next)
  {
  }

  /** The prefix test is textual: `/dashboards` is gated like `/dashboard`. */
  lemma PrefixGatesLookalikes()
    ensures Route(Some("localhost:3000"), "/dashboards", false) == Redirect("/login")
  {
    assert "/dashboards"[..10] == "/dashboard";
    var s := "/dashboards";
    assert !IsPassThrough(s) by {
      assert s[..6][1] == 'd' != "/_next"[1];
      assert s[..4][1] == 'd' != "/api"[1];
      assert forall i :: 0 <= i < |s| ==> s[i] != '.';
    }
  }
}

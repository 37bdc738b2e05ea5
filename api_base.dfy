/**
 * The backend origin every screen talks to: the page's own scheme followed by
 * the configured host, with any scheme the configuration carries removed.
 * Three variants exist in the code base; all three are modelled.
 */
module ApiBase {
  import opened Js

  predicate HasPrefix(s: string, p: string)
  {
    |p| <= |s| && s[..|p|] == p
  }

  predicate StartsWithScheme(host: string)
  {
    HasPrefix(host, "http://") || HasPrefix(host, "https://")
  }

  /** The two scheme prefixes never both match, and neither do "http:" and "https:". */
  lemma SchemesExclusive(h: string)
    ensures !(HasPrefix(h, "http://") && HasPrefix(h, "https://"))
    ensures !(HasPrefix(h, "http:") && HasPrefix(h, "https:"))
  {
    if HasPrefix(h, "https:") {
      assert h[4] == "https:"[4] == 's';
      assert "http:"[4] == ':' && "http://"[4] == ':';
    }
    if HasPrefix(h, "https://") {
      assert h[..6] == "https:";
    }
  }

  /** `host.replace(/^https?:\/\//, '')`: removes one leading "http://" or "https://". */
  function StripScheme(host: string): (r: string)
    ensures r == host <==> !StartsWithScheme(host)
    ensures HasPrefix(host, "http://") ==> host == "http://" + r
    ensures HasPrefix(host, "https://") ==> host == "https://" + r
  {
    SchemesExclusive(host);
    if HasPrefix(host, "http://") then host[7..]
    else if HasPrefix(host, "https://") then host[8..]
    else host
  }

  /** `window.location.protocol === 'https:' ? 'https' : 'http'`. */
  function Scheme(protocol: string): string
  {
    if protocol == "https:" then "https" else "http"
  }

  /**
   * getApiBaseUrl as it stands in the session slice (and, identically, in the
   * booking form, the catalogue, the payment status page and the slide editor).
   */
  function ApiBaseUrl(protocol: string, configured: string): (url: string)
    ensures HasPrefix(url, "https://") <==> protocol == "https:"
    ensures protocol == "https:" ==> url == "https://" + StripScheme(configured)
    ensures protocol != "https:" ==> url == "http://" + StripScheme(configured)
  {
    OriginScheme(protocol, StripScheme(configured));
    Scheme(protocol) + "://" + StripScheme(configured)
  }

  /** An origin built from the page protocol starts with `https://` exactly for an `https:` page. */
  lemma OriginScheme(protocol: string, host: string)
    ensures HasPrefix(Scheme(protocol) + "://" + host, "https://") <==> protocol == "https:"
  {
    var url := Scheme(protocol) + "://" + host;
    if protocol == "https:" {
      assert url[..8] == "https://";
    } else {
      assert url[4] == ':';
    }
  }

  /** The dashboard's host rule: `configured?.replace(...) || 'localhost:3000'`. */
  function DashboardHost(configured: Option<string>): (host: string)
    ensures host != ""
    ensures configured.None? ==> host == "localhost:3000"
    ensures configured.Some? && StripScheme(configured.value) != "" ==> host == StripScheme(configured.value)
    ensures configured.Some? && StripScheme(configured.value) == "" ==> host == "localhost:3000"
  {
    match configured
    case None => "localhost:3000"
    case Some(c) => if StripScheme(c) != "" then StripScheme(c) else "localhost:3000"
  }

  /** getApiBaseUrl of the dashboard, which tolerates an unset or empty host. */
  function DashboardApiBaseUrl(protocol: string, configured: Option<string>): (url: string)
  {
    Scheme(protocol) + "://" + DashboardHost(configured)
  }

  /** Whenever the configured host is set and not blank once stripped, both variants agree. */
  lemma DashboardAgreesWhenConfigured(protocol: string, configured: string)
    requires StripScheme(configured) != ""
    ensures DashboardApiBaseUrl(protocol, Some(configured)) == ApiBaseUrl(protocol, configured)
  {
  }

  /** Without configuration the dashboard falls back to localhost:3000. */
  lemma DashboardFallback(protocol: string)
    ensures DashboardApiBaseUrl(protocol, None) == Scheme(protocol) + "://localhost:3000"
    ensures DashboardApiBaseUrl(protocol, Some("https://")) == Scheme(protocol) + "://localhost:3000"
  {
    StripSchemeOfPrefixed("https://", "");
  }

  /** Removing a scheme that is there leaves exactly what follows it. */
  lemma StripSchemeOfPrefixed(scheme: string, rest: string)
    requires scheme == "http://" || scheme == "https://"
    ensures StripScheme(scheme + rest) == rest
  {
    var h := scheme + rest;
    assert h[..|scheme|] == scheme;
    assert HasPrefix(h, scheme);
    assert h[|scheme|..] == rest;
  }

  function LeadingSlashes(s: string): (k: nat)
    ensures k <= |s|
    ensures forall i :: 0 <= i < k ==> s[i] == '/'
    ensures k < |s| ==> s[k] != '/'
  {
    if s != [] && s[0] == '/' then 1 + LeadingSlashes(s[1..]) else 0
  }

  /** The length of a leading "http:" or "https:", and 0 when there is none. */
  function SchemeColonLength(host: string): (p: nat)
    ensures p == 0 || p == 5 || p == 6
    ensures p <= |host|
  {
    if HasPrefix(host, "http:") then 5 else if HasPrefix(host, "https:") then 6 else 0
  }

  /** A host starts with a full scheme exactly when "http:" or "https:" is followed by two slashes. */
  lemma SchemeSlashesIff(host: string)
    ensures StartsWithScheme(host) <==>
      SchemeColonLength(host) > 0 && LeadingSlashes(host[SchemeColonLength(host)..]) >= 2
    ensures HasPrefix(host, "http://") ==> SchemeColonLength(host) == 5
    ensures HasPrefix(host, "https://") ==> SchemeColonLength(host) == 6
  {
    SchemesExclusive(host);
    var p := SchemeColonLength(host);
    if HasPrefix(host, "http://") {
      assert host[..5] == "http:";
      TwoSlashesAt(host, 5);
    }
    if HasPrefix(host, "https://") {
      assert host[..6] == "https:";
      TwoSlashesAt(host, 6);
    }
    if p > 0 && LeadingSlashes(host[p..]) >= 2 {
      var t := host[p..];
      assert host[p] == t[0] == '/' && host[p + 1] == t[1] == '/';
      if p == 5 {
        assert host[..7] == host[..5] + ['/', '/'];
      } else {
        assert host[..8] == host[..6] + ['/', '/'];
      }
    }
  }

  lemma TwoSlashesAt(host: string, p: nat)
    requires p + 2 <= |host| && host[p] == '/' && host[p + 1] == '/'
    ensures LeadingSlashes(host[p..]) >= 2
  {
    var t := host[p..];
    assert t[0] == '/' && t[1..][0] == '/';
  }

  /**
   * The profile page's `host.replace(/^https?:\/\/+/, '')`: "http:" or
   * "https:" followed by two or more slashes loses the scheme and every
   * one of those slashes; any other host is kept.
   */
  function StripSchemeSlashes(host: string): (r: string)
    ensures r == host <==> !StartsWithScheme(host)
    ensures |r| <= |host| && r == host[|host| - |r|..]
    ensures StartsWithScheme(host) ==> r == [] || r[0] != '/'
    ensures HasPrefix(host, "http://") ==>
      |host| - |r| >= 7 && forall i :: 5 <= i < |host| - |r| ==> host[i] == '/'
    ensures HasPrefix(host, "https://") ==>
      |host| - |r| >= 8 && forall i :: 6 <= i < |host| - |r| ==> host[i] == '/'
  {
    SchemeSlashesIff(host);
    var p := SchemeColonLength(host);
    if p == 0 then host
    else
      var k := LeadingSlashes(host[p..]);
      if k >= 2 then host[p + k..] else host
  }

  /** getApiBaseUrl of the profile page. */
  function ProfileApiBaseUrl(protocol: string, configured: string): (url: string)
    ensures HasPrefix(url, "https://") <==> protocol == "https:"
    ensures !StartsWithScheme(configured) ==> url == ApiBaseUrl(protocol, configured)
  {
    OriginScheme(protocol, StripSchemeSlashes(configured));
    assert !StartsWithScheme(configured) ==> StripSchemeSlashes(configured) == configured == StripScheme(configured);
    Scheme(protocol) + "://" + StripSchemeSlashes(configured)
  }

  /** With exactly "//" after the scheme, the profile page and the other screens use the same origin. */
  lemma ProfileUrlAgrees(protocol: string, c: string, rest: string)
    requires c == "http:" || c == "https:"
    requires rest == [] || rest[0] != '/'
    ensures ProfileApiBaseUrl(protocol, c + "//" + rest) == ApiBaseUrl(protocol, c + "//" + rest)
  {
    ProfileStripAgrees(c, rest);
  }

  /** What the profile's rule does to a host that starts with "http:" or "https:". */
  lemma StripSlashesShape(c: string, tail: string)
    requires c == "http:" || c == "https:"
    ensures StripSchemeSlashes(c + tail) ==
      if LeadingSlashes(tail) >= 2 then tail[LeadingSlashes(tail)..] else c + tail
  {
    var h := c + tail;
    assert h[..|c|] == c;
    SchemesExclusive(h);
    var p := SchemeColonLength(h);
    assert p == |c|;
    assert h[p..] == tail;
    var k := LeadingSlashes(tail);
    assert h[p + k..] == tail[k..];
  }

  /**
   * With exactly "//" after the scheme, the profile's rule and the common rule
   * remove the same prefix.
   */
  lemma ProfileStripAgrees(c: string, rest: string)
    requires c == "http:" || c == "https:"
    requires rest == [] || rest[0] != '/'
    ensures StripSchemeSlashes(c + "//" + rest) == rest
    ensures StripScheme(c + "//" + rest) == rest
  {
    var scheme := c + "//";
    assert scheme + rest == c + ("//" + rest);
    StripSlashesOfDouble(c, rest);
    StripSchemeOfPrefixed(scheme, rest);
  }

  lemma StripSlashesOfDouble(c: string, rest: string)
    requires c == "http:" || c == "https:"
    requires rest == [] || rest[0] != '/'
    ensures StripSchemeSlashes(c + ("//" + rest)) == rest
  {
    SlashesOfPrefixed("//", rest);
    StripSlashesShape(c, "//" + rest);
    assert ("//" + rest)[2..] == rest;
  }

  /** Once "//" follows the scheme, the profile's rule removes any further slash too. */
  lemma ProfileStripExtraSlash(c: string, tail: string)
    requires c == "http:" || c == "https:"
    requires LeadingSlashes(tail) >= 2
    ensures StripSchemeSlashes(c + ("/" + tail)) == StripSchemeSlashes(c + tail)
  {
    OneMoreSlash(tail);
    StripSlashesShape(c, tail);
    StripSlashesShape(c, "/" + tail);
  }

  lemma OneMoreSlash(tail: string)
    ensures LeadingSlashes("/" + tail) == 1 + LeadingSlashes(tail)
    ensures ("/" + tail)[1 + LeadingSlashes(tail)..] == tail[LeadingSlashes(tail)..]
  {
    var t := "/" + tail;
    assert t[0] == '/' && t[1..] == tail;
  }

  lemma {:induction false} SlashesOfPrefixed(slashes: string, rest: string)
    requires forall i :: 0 <= i < |slashes| ==> slashes[i] == '/'
    ensures LeadingSlashes(slashes + rest) == |slashes| + LeadingSlashes(rest)
    decreases |slashes|
  {
    if slashes != [] {
      assert (slashes + rest)[0] == '/';
      assert (slashes + rest)[1..] == slashes[1..] + rest;
      SlashesOfPrefixed(slashes[1..], rest);
    } else {
      assert slashes + rest == rest;
    }
  }
}

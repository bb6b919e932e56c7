/**
 * Asset paths: the site may be served from the root of a host or, on GitHub
 * Pages, below the repository's name, and asset URLs are rewritten to match.
 *
 * Whether the code runs in a browser, and the browser's host name, are passed
 * in: `host` is `None` during server-side rendering and the build (no
 * `window`), and `Some(hostname)` in a browser.
 */
module AssetPaths {
  import opened Options

  /** The host-name fragment that marks a GitHub Pages deployment. */
  const PagesHostMarker: string := "github.io"

  /** The prefix under which GitHub Pages serves the site. */
  const PagesBase: string := "/THJ-EquipmentBuilder/"

  /** `s` begins with `p`. */
  predicate StartsWith(s: string, p: string) {
    |p| <= |s| && s[..|p|] == p
  }

  /** `sub` occurs in `s` starting at position `i`. */
  predicate OccursAt(s: string, sub: string, i: int) {
    0 <= i && i + |sub| <= |s| && s[i..i + |sub|] == sub
  }

  /** An occurrence in `s` is at its start or is an occurrence in its tail, one position later. */
  lemma OccursShift(s: string, sub: string)
    requires |s| > 0
    ensures (exists i :: OccursAt(s, sub, i)) <==> OccursAt(s, sub, 0) || exists i :: OccursAt(s[1..], sub, i)
  {
    if exists i :: OccursAt(s, sub, i) && !OccursAt(s, sub, 0) {
      var i :| OccursAt(s, sub, i) && !OccursAt(s, sub, 0);
      assert s[1..][i - 1..i - 1 + |sub|] == s[i..i + |sub|];
      assert OccursAt(s[1..], sub, i - 1);
    }
    if exists i :: OccursAt(s[1..], sub, i) {
      var i :| OccursAt(s[1..], sub, i);
      assert s[1..][i..i + |sub|] == s[i + 1..i + 1 + |sub|];
      assert OccursAt(s, sub, i + 1);
    }
  }

  /** `sub` occurs somewhere in `s` (the empty string occurs everywhere). */
  function Includes(s: string, sub: string): (r: bool)
    ensures r <==> exists i :: OccursAt(s, sub, i)
    decreases |s|
  {
    if |sub| > |s| then false
    else if s[..|sub|] == sub then assert OccursAt(s, sub, 0); true
    else
      OccursShift(s, sub);
      Includes(s[1..], sub)
  }

  /** The path with one leading slash, if it has one, removed. */
  function CleanPath(path: string): (r: string)
    ensures StartsWith(path, "/") ==> path == "/" + r
    ensures !StartsWith(path, "/") ==> r == path
  {
    if StartsWith(path, "/") then path[1..] else path
  }

  /** The URL of an asset, given its path and, in a browser, the host name. */
  function GetAssetPath(path: string, host: Option<string>): (r: string)
    ensures host.None? ==> r == path
    ensures host.Some? && Includes(host.value, PagesHostMarker) ==> r == PagesBase + CleanPath(path)
    ensures host.Some? && !Includes(host.value, PagesHostMarker) ==> r == "/" + CleanPath(path)
  {
    match host
    case None => path
    case Some(hostname) =>
      var cleanPath := CleanPath(path);
      if Includes(hostname, PagesHostMarker) then PagesBase + cleanPath else "/" + cleanPath
  }

  /** In a browser every asset URL is absolute: it begins with a slash. */
  lemma BrowserPathsAbsolute(path: string, hostname: string)
    ensures StartsWith(GetAssetPath(path, Some(hostname)), "/")
  {
    var r := GetAssetPath(path, Some(hostname));
    assert r[0] == '/';
  }

  /** In a browser, a path with or without its leading slash names the same asset. */
  lemma LeadingSlashIgnored(path: string, hostname: string)
    requires !StartsWith(path, "/")
    ensures GetAssetPath("/" + path, Some(hostname)) == GetAssetPath(path, Some(hostname))
  {
    assert StartsWith("/" + path, "/");
    assert ("/" + path)[1..] == path;
  }

  /** Every host below `github.io` is taken for GitHub Pages. */
  lemma PagesHostsRecognised(path: string, subdomain: string)
    ensures GetAssetPath(path, Some(subdomain + PagesHostMarker)) == PagesBase + CleanPath(path)
  {
    var h := subdomain + PagesHostMarker;
    assert OccursAt(h, PagesHostMarker, |subdomain|);
  }

  /** A host name shorter than the marker, such as `localhost`, is never GitHub Pages. */
  lemma ShortHostsServeFromRoot(path: string, hostname: string)
    requires |hostname| < |PagesHostMarker|
    ensures GetAssetPath(path, Some(hostname)) == "/" + CleanPath(path)
  {
  }

  /**
   * Off GitHub Pages, rewriting a URL a second time changes nothing, as long as
   * the path did not begin with two slashes.
   */
  lemma RootRewriteIdempotent(path: string, hostname: string)
    requires !Includes(hostname, PagesHostMarker)
    requires !StartsWith(CleanPath(path), "/")
    ensures GetAssetPath(GetAssetPath(path, Some(hostname)), Some(hostname)) ==
            GetAssetPath(path, Some(hostname))
  {
    var once := GetAssetPath(path, Some(hostname));
    assert StartsWith(once, "/");
    assert once[1..] == CleanPath(path);
  }

  /** On GitHub Pages a second rewrite nests the prefix again: the rewrite is applied once. */
  lemma PagesRewriteNotIdempotent(path: string, hostname: string)
    requires Includes(hostname, PagesHostMarker)
    ensures GetAssetPath(GetAssetPath(path, Some(hostname)), Some(hostname)) ==
            PagesBase + PagesBase[1..] + CleanPath(path)
  {
    var once := GetAssetPath(path, Some(hostname));
    assert StartsWith(once, "/");
    assert once[1..] == PagesBase[1..] + CleanPath(path);
  }

  /** Only one leading slash is removed: off GitHub Pages a path that begins with two keeps both. */
  lemma DoubleSlashKept(rest: string, hostname: string)
    requires !Includes(hostname, PagesHostMarker)
    ensures GetAssetPath("//" + rest, Some(hostname)) == "//" + rest
  {
    assert StartsWith("//" + rest, "/");
    assert ("//" + rest)[1..] == "/" + rest;
  }
}

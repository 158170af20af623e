/** The version redirect of the bootstrap script (`Detect`, page.js:29-47):
    the URL of the current page under another deployed version. */
module Detect {
  import opened Wrappers

  /** `version_to_path`: "/" + version + "/" + route path + query string. */
  function VersionToPath(version: string, currentPath: string, search: string): (url: string)
    ensures |url| == |version| + |currentPath| + |search| + 2
    ensures url[0] == '/' && url[1..|version| + 1] == version && url[|version| + 1] == '/'
    ensures url[|version| + 2..] == currentPath + search
  {
    "/" + version + "/" + currentPath + search
  }

  /** The first position of `c` in `s`, or `|s|` when there is none. */
  function IndexOf(s: string, c: char): (i: nat)
    ensures i <= |s|
    ensures i < |s| ==> s[i] == c
    ensures forall j :: 0 <= j < i ==> s[j] != c
  {
    if |s| == 0 then 0
    else if s[0] == c then 0
    else 1 + IndexOf(s[1..], c)
  }

  /** Reads a versioned URL back: the segment after the leading "/" up to the
      next "/", and everything after that. */
  function SplitVersion(url: string): (r: Option<(string, string)>)
    ensures r.Some? ==> '/' !in r.value.0 && url == "/" + r.value.0 + "/" + r.value.1
  {
    if |url| > 0 && url[0] == '/' then
      var rest := url[1..];
      var i := IndexOf(rest, '/');
      if i < |rest| then
        assert url == "/" + rest[..i] + "/" + rest[i + 1..];
        Some((rest[..i], rest[i + 1..]))
      else None
    else None
  }

  lemma {:induction false} IndexOfAfterPrefix(a: string, b: string, c: char)
    requires c !in a
    ensures IndexOf(a + [c] + b, c) == |a|
  {
    if |a| > 0 {
      assert (a + [c] + b)[1..] == a[1..] + [c] + b;
      IndexOfAfterPrefix(a[1..], b, c);
    }
  }

  /** The redirect URL determines the version and the rest of the target: for
      a version without "/", splitting the URL gives them back. */
  lemma VersionToPathSplits(version: string, currentPath: string, search: string)
    requires '/' !in version
    ensures SplitVersion(VersionToPath(version, currentPath, search)) == Some((version, currentPath + search))
  {
    var url := VersionToPath(version, currentPath, search);
    assert url[1..] == version + ['/'] + (currentPath + search);
    var rest := url[1..];
    assert rest == version + ['/'] + (currentPath + search);
    IndexOfAfterPrefix(version, currentPath + search, '/');
    assert rest[..|version|] == version;
    assert rest[|version| + 1..] == currentPath + search;
  }

  /** Two versions without "/" yield the same redirect URL only if they are the
      same version and the route path and query string spell the same text. */
  lemma VersionToPathInjective(v1: string, p1: string, s1: string, v2: string, p2: string, s2: string)
    requires '/' !in v1 && '/' !in v2
    requires VersionToPath(v1, p1, s1) == VersionToPath(v2, p2, s2)
    ensures v1 == v2 && p1 + s1 == p2 + s2
  {
    VersionToPathSplits(v1, p1, s1);
    VersionToPathSplits(v2, p2, s2);
  }

  /** The redirect for route "x/y", query "?a=1" and version "v3". */
  lemma ScenarioRedirect()
    ensures VersionToPath("v3", "x/y", "?a=1") == "/v3/x/y?a=1"
  {
  }
}

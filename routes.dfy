/**
 * The two route shapes the registries insert into their `PathTree`: a
 * literal route `/p`, matched by that path only, and a catch-all (`/p/` followed by a star),
 * matched by every path that starts with `/p/` (the rest may be empty).
 * Lookup prefers a literal route, then the longest catch-all.
 */
module RouteTree {
  import opened Wrappers
  import opened Text

  /** Route pattern to the plugin name it leads to. */
  type RouteTable = map<string, string>

  /** A pattern ending in a slash and a star is a catch-all. */
  predicate IsCatchAll(pattern: string) {
    |pattern| >= 2 && pattern[|pattern| - 2] == '/' && pattern[|pattern| - 1] == '*'
  }

  predicate Matches(pattern: string, path: string) {
    if IsCatchAll(pattern) then StartsWith(path, pattern[..|pattern| - 1]) else path == pattern
  }

  /** The longest catch-all whose `/p/` is among the first `k` characters of `path`. */
  function CatchAllWithin(routes: RouteTable, path: string, k: nat): (r: Option<string>)
    requires k <= |path|
    ensures r.Some? ==> r.value in routes.Values
    ensures r.None? ==> forall j :: 0 < j <= k && path[j - 1] == '/' ==> path[..j] + "*" !in routes
    decreases k
  {
    if k == 0 then None
    else if path[k - 1] == '/' && path[..k] + "*" in routes then Some(routes[path[..k] + "*"])
    else CatchAllWithin(routes, path, k - 1)
  }

  /** `PathTree::find`: the name routed to `path`, if any. */
  function Find(routes: RouteTable, path: string): (r: Option<string>)
    ensures path in routes ==> r == Some(routes[path])
    ensures r.Some? ==> r.value in routes.Values
    ensures r.None? <==> path !in routes && CatchAllWithin(routes, path, |path|).None?
  {
    if path in routes then Some(routes[path]) else CatchAllWithin(routes, path, |path|)
  }

  lemma {:induction false} CatchAllWithinSound(routes: RouteTable, path: string, k: nat) returns (pattern: string)
    requires k <= |path| && CatchAllWithin(routes, path, k).Some?
    ensures pattern in routes && routes[pattern] == CatchAllWithin(routes, path, k).value && Matches(pattern, path)
    decreases k
  {
    if path[k - 1] == '/' && path[..k] + "*" in routes {
      pattern := path[..k] + "*";
      assert pattern[..|pattern| - 1] == path[..k];
    } else {
      pattern := CatchAllWithinSound(routes, path, k - 1);
    }
  }

  /** Whatever `Find` answers is the name of a route that matches the path. */
  lemma FindSound(routes: RouteTable, path: string) returns (pattern: string)
    requires Find(routes, path).Some?
    ensures pattern in routes && routes[pattern] == Find(routes, path).value && Matches(pattern, path)
  {
    if path in routes {
      pattern := path;
      if IsCatchAll(path) {
        assert StartsWith(path, path[..|path| - 1]);
      }
    } else {
      pattern := CatchAllWithinSound(routes, path, |path|);
    }
  }

  lemma {:induction false} CatchAllWithinComplete(routes: RouteTable, path: string, k: nat, pattern: string)
    requires k <= |path| && pattern in routes && IsCatchAll(pattern) && StartsWith(path, pattern[..|pattern| - 1])
    requires |pattern| - 1 <= k
    ensures CatchAllWithin(routes, path, k).Some?
    decreases k
  {
    var base := pattern[..|pattern| - 1];
    assert pattern == base + "*";
    if k == |base| {
      assert path[..k] == base && path[k - 1] == '/';
    } else if !(path[k - 1] == '/' && path[..k] + "*" in routes) {
      CatchAllWithinComplete(routes, path, k - 1, pattern);
    }
  }

  /** Every path some route matches is routed somewhere. */
  lemma FindComplete(routes: RouteTable, path: string, pattern: string)
    requires pattern in routes && Matches(pattern, path)
    ensures Find(routes, path).Some?
  {
    if path !in routes && IsCatchAll(pattern) {
      CatchAllWithinComplete(routes, path, |path|, pattern);
    }
  }

  /** A table holding only a mount route `m` and its catch-all sends `m` and everything below `m/` to their name. */
  lemma LoneRoutesFind(m: string, name: string, path: string)
    requires path == m || StartsWith(path, m + "/")
    ensures Find(map[m := name][m + "/*" := name], path) == Some(name)
  {
    var routes := map[m := name][m + "/*" := name];
    var c := m + "/*";
    assert c[..|c| - 1] == m + "/";
    if path == m {
      FindComplete(routes, path, m);
    } else {
      FindComplete(routes, path, c);
    }
    var _ := FindSound(routes, path);
  }

  /** In such a table, `m` followed by any `/`-led rest goes to the name. */
  lemma LoneRoutesFindBelow(m: string, name: string, rest: string)
    requires rest != [] && rest[0] == '/'
    ensures Find(map[m := name][m + "/*" := name], m + rest) == Some(name)
  {
    assert (m + rest)[..|m| + 1] == m + "/";
    LoneRoutesFind(m, name, m + rest);
  }
}

/** Request routing: the dispatch on (path, method) that ServeHTTP performs
    before any handler runs. */
module Router {

  const AlbumsPath: string := "/albums"
  const ItemPrefix: string := "/albums/"

  /** What ServeHTTP does with a request. */
  datatype Action =
    | ListAlbums                 // getAlbums
    | AddAlbum                   // addAlbum
    | GetAlbumByID(id: string)   // getAlbumByID with the id taken from the path
    | MethodNotAllowed           // 405
    | NotFound                   // 404

  /** The regular expression ^/albums/[^/]+$, matched character by
      character: the literal prefix, then the rest of the path. */
  predicate MatchesLiteralThenSegment(s: string, literal: string)
    decreases |literal|
  {
    if literal == [] then MatchesSegment(s)
    else s != [] && s[0] == literal[0] && MatchesLiteralThenSegment(s[1..], literal[1..])
  }

  /** [^/]+$ : one or more characters, none of them '/', up to the end. */
  predicate MatchesSegment(s: string)
  {
    s != [] && s[0] != '/' && (|s| == 1 || MatchesSegment(s[1..]))
  }

  /** albumsIDRegexp.MatchString(path): the regular expression accepts
      exactly the item paths. */
  predicate MatchesItemPattern(path: string)
    ensures MatchesItemPattern(path) <==> IsItemPath(path)
  {
    LiteralThenSegment(path, ItemPrefix);
    MatchesLiteralThenSegment(path, ItemPrefix)
  }

  /** The same language, stated directly: the path starts with "/albums/"
      and the rest is non-empty and has no '/'. */
  predicate IsItemPath(path: string)
  {
    |path| > |ItemPrefix| && path[..|ItemPrefix|] == ItemPrefix && '/' !in path[|ItemPrefix|..]
  }

  lemma {:induction false} SegmentIsNonEmptyWithoutSlash(s: string)
    ensures MatchesSegment(s) <==> s != [] && '/' !in s
  {
    if |s| > 1 {
      SegmentIsNonEmptyWithoutSlash(s[1..]);
      assert s == [s[0]] + s[1..];
    }
  }

  lemma {:induction false} LiteralThenSegment(s: string, literal: string)
    ensures MatchesLiteralThenSegment(s, literal)
        <==> |s| > |literal| && s[..|literal|] == literal && '/' !in s[|literal|..]
    decreases |literal|
  {
    if literal == [] {
      SegmentIsNonEmptyWithoutSlash(s);
      assert s[..0] == [] && s[0..] == s;
    } else if s != [] {
      LiteralThenSegment(s[1..], literal[1..]);
      if |s| >= |literal| {
        assert s[1..][|literal| - 1..] == s[|literal|..];
        assert s[..|literal|] == [s[0]] + s[1..][..|literal| - 1];
      }
    }
  }

  /** ServeHTTP's dispatch: the collection path first, then the item
      pattern, then 404. The id is the path after "/albums/". */
  function Route(verb: string, path: string): (a: Action)
    ensures a == ListAlbums <==> path == AlbumsPath && verb == "GET"
    ensures a == AddAlbum <==> path == AlbumsPath && verb == "POST"
    ensures a.GetAlbumByID? <==> IsItemPath(path) && verb == "GET"
    ensures a.GetAlbumByID? ==> ItemPrefix + a.id == path && a.id != [] && '/' !in a.id
    ensures a == MethodNotAllowed <==>
      (path == AlbumsPath && verb != "GET" && verb != "POST") || (IsItemPath(path) && verb != "GET")
    ensures a == NotFound <==> path != AlbumsPath && !IsItemPath(path)
  {
    if path == AlbumsPath then
      if verb == "GET" then ListAlbums
      else if verb == "POST" then AddAlbum
      else MethodNotAllowed
    else if MatchesItemPattern(path) then
      if verb == "GET" then
        assert path == path[..|ItemPrefix|] + path[|ItemPrefix|..];
        GetAlbumByID(path[|ItemPrefix|..])
      else MethodNotAllowed
    else NotFound
  }

  /** Every non-empty id without '/' can be fetched: GET on "/albums/" + id
      routes to that very id. */
  lemma ItemRouteRoundTrip(id: string)
    requires id != [] && '/' !in id
    ensures Route("GET", ItemPrefix + id) == GetAlbumByID(id)
  {
  }

  /** The routes the repository's tests exercise and the code agrees on. */
  lemma TestedRoutes()
    ensures Route("GET", "/albums") == ListAlbums
    ensures Route("POST", "/albums") == AddAlbum
    ensures Route("PUT", "/albums") == MethodNotAllowed
    ensures Route("GET", "/albums/a1") == GetAlbumByID("a1")
    ensures Route("PUT", "/albums/a1") == MethodNotAllowed
    ensures Route("GET", "/albums/") == NotFound
    ensures Route("GET", "/albums/foo/bar") == NotFound
  {
  }
}

# Album web service, modelled in Dafny

This project models the core of a small album web service written with the Go
standard library (`main.go`). The service keeps albums in memory in a map from
album ID to album. It answers three requests:

- `GET /albums` lists every album, sorted by ID.
- `POST /albums` creates an album. It first checks the required fields and
  refuses an ID that is already taken.
- `GET /albums/{id}` fetches one album.

The model has four modules:

- `Albums` (`albums.dfy`) holds the `Album` record, the errors a database
  returns (`DoesNotExist`, `AlreadyExists`, any other error), and Go's string
  order `Less`. Lemmas prove that `Less` is a strict total order.
- `Store` (`store.dfy`) holds the `MemoryDatabase` class. Its field `albums` is
  a `map<string, Album>`, and its methods are `GetAlbums`, `GetAlbumByID` and
  `AddAlbum`. `GetAlbums` copies the map's values in a loop whose order is not
  determined, then sorts them in place on an array, as `sort.Slice` does. Its
  contract is the `Listing` predicate: the result holds exactly the stored
  albums and is strictly ascending by ID. `ListingDeterministic` proves that
  this fixes the answer whatever order the map is traversed in.
- `Router` (`router.dfy`) holds `Route`, the dispatch on (method, path) that
  `ServeHTTP` performs. The regular expression `^/albums/[^/]+$` is modelled as
  a character-by-character matcher, `MatchesItemPattern`. Its contract says it
  accepts exactly the paths that start with `/albums/` followed by a non-empty
  rest with no `/`.
- `AlbumServer` (`server.dfy`) holds the handlers and the `Server` class:
  - `ReadJSON` works on the request body's outcome (read error, parse error or
    decoded album).
  - `MissingFields` is the required-field check.
  - Three pure functions turn a database result into a status code.
  - `Server.ServeHTTP` composes routing, handlers and the in-memory database.
  - Three scenario methods restate the repository's tests where they agree
    with `main.go`: listing the seeded albums, create-then-fetch, and conflict
    without overwrite.

A response is modelled as a status code plus a payload. The payload is nothing,
one album, a list of albums, the list of missing field names, or the JSON
decoder's message.

`main_test.go` expects a richer variant of the server: a two-argument
`NewServer`, JSON error envelopes, a price-range check and `Allow` headers.
`main.go` has none of these. It has no price-range validation, sets no `Allow`
header on a 405, and writes plain-text errors with `http.Error`. The model
follows `main.go` and uses the tests only where they agree with it.

## Model

| member | source | states |
|---|---|---|
| Albums.Less | main.go:222 | Go's string `<`: lexicographic, so a proper prefix sorts before every longer string that extends it |
| Albums.LessIrreflexive | main.go:221-223 | no ID sorts before itself under Go's string `<` |
| Albums.LessAsymmetric | main.go:221-223 | if `a < b` then not `b < a` |
| Albums.LessTransitive | main.go:221-223 | `a < b` and `b < c` give `a < c` |
| Albums.LessTotal | main.go:221-223 | any two different IDs are ordered one way or the other, so sorting by ID is a total order |
| Albums.NotLessTransitive | main.go:221-223 | "not after" is transitive, the step that lets a sort by this comparison produce a sorted slice |
| Store.SortedCopyIsListing | main.go:212-224 | a copy holding each stored album once, sorted by ID, is the listing: one element per key, exactly the stored albums, strictly ascending, because every album is filed under its own distinct ID |
| Store.SortByID | main.go:220-223 | sorting the copied slice in place by ID leaves it sorted and a permutation of what it was |
| Store.AscendingSameAlbumsEqual | main.go:220-223 | two ID-ascending sequences of the same albums are equal |
| Store.ListingDeterministic | main.go:47-48 | the sorted copy is determined by the stored albums alone, whatever the map's iteration order |
| Store.MemoryDatabase.constructor | main.go:205-208 | NewMemoryDatabase starts with no albums |
| Store.MemoryDatabase.GetAlbums | main.go:210-225 | never fails and changes nothing; the result has one element per stored album, holds exactly the stored albums, and is strictly ascending by ID |
| Store.MemoryDatabase.GetAlbumByID | main.go:227-236 | succeeds exactly when the ID is stored, with the stored album (whose ID is the one asked for); otherwise fails with DoesNotExist; changes nothing |
| Store.MemoryDatabase.AddAlbum | main.go:238-247 | on a taken ID fails with AlreadyExists and leaves the map unchanged; otherwise the map becomes the old map with the album under its ID; every album stays filed under its own ID |
| Store.AddThenGet | main.go:238-247 | adding under a fresh ID and then fetching that ID gives the album back unchanged, and no other album changes |
| Store.AddTwiceKeepsFirst | main.go:238-247 | a second add under the same ID fails with AlreadyExists and the first album is still the one fetched |
| Router.SegmentIsNonEmptyWithoutSlash | main.go:77-78 | `[^/]+$` matches exactly the non-empty strings without `/` |
| Router.LiteralThenSegment | main.go:77-78 | a literal prefix followed by `[^/]+$` matches exactly the strings that start with the prefix and whose non-empty rest has no `/` |
| Router.MatchesItemPattern | main.go:77-78 | `albumsIDRegexp.MatchString` (used at main.go:98): `^/albums/[^/]+$` accepts a path exactly when it starts with `/albums/` and the rest is non-empty and has no `/` |
| Router.Route | main.go:83-110 | `/albums` with GET lists and with POST creates, any other method there is 405; an item path with GET fetches the id after `/albums/`, any other method there is 405; every other path is 404; each condition is an if-and-only-if |
| Router.ItemRouteRoundTrip | main.go:98-102 | for every non-empty id without `/`, GET on `/albums/` followed by the id routes to getAlbumByID with that same id |
| Router.TestedRoutes | main.go:87-109 | `/albums/` and `/albums/foo/bar` are 404, `/albums/a1` fetches `a1`, PUT on either route is 405 |
| AlbumServer.ReadJSON | main.go:184-196 | the handler continues exactly when the body decoded, with the decoded album; a read failure is a 500 and a decode failure a 400 carrying the decoder's message |
| AlbumServer.MissingFields | main.go:127-137 | the list names exactly the empty fields among id, title and artist, in that order, and is empty exactly when all three are set |
| AlbumServer.InFieldOrderSameNamesEqual | main.go:128-137 | two lists of required field names in check order that name the same fields are equal |
| AlbumServer.MissingDetermined | main.go:128-137 | the missing-field list is determined by the album alone |
| AlbumServer.EmptyAlbumMissesAll | main.go:128-141 | a body with no required field set is missing id, title and artist, in that order |
| AlbumServer.AlbumsResponse | main.go:112-119 | any database error is a 500 with no albums; success is a 200 with the albums as returned |
| AlbumServer.AlbumResponse | main.go:156-167 | DoesNotExist is a 404, any other error a 500; only success is a 200, and it carries the album the database returned |
| AlbumServer.CreatedResponse | main.go:143-153 | AlreadyExists is a 409, any other error a 500; only success is a 201, echoing the album that was sent |
| AlbumServer.Server.constructor | main.go:72-75 | NewServer keeps the database it is given |
| AlbumServer.Server.GetAlbums | main.go:112-119 | with the in-memory database the answer is a 200 listing every album, sorted by ID |
| AlbumServer.Server.GetAlbumByID | main.go:156-167 | a 200 with the stored album when the id is stored, otherwise a 404 |
| AlbumServer.Server.AddAlbum | main.go:121-154 | a rejected body or a missing field leaves the database untouched (it is never called) and answers the rejection or a 400 with the missing list; a taken ID is a 409 without overwrite; otherwise a 201 echoing the album, which is now stored under its ID |
| AlbumServer.Server.ServeHTTP | main.go:83-110 | each route runs its handler, with that handler's outcome; 405 and 404 answer without touching the database; only a POST to `/albums` can change the stored albums |
| AlbumServer.NewSeededServer | main_test.go:226-232 | seeding a2 then a1 stores exactly those two albums under their IDs |
| AlbumServer.ListSeeded | main_test.go:27-41 | GET `/albums` on the seeded server is a 200 listing a1 before a2, although a2 was added first |
| AlbumServer.CreateThenFetch | main_test.go:82-96 | POST of a new album is a 201 echoing it, and GET `/albums/a9` then returns the same album |
| AlbumServer.ConflictKeepsFirst | main_test.go:114-124 | POST of a taken ID is a 409, and the stored album is still the original |

## Left out

- `main()` (flag parsing, seeding, `http.ListenAndServe`) is process bootstrap and network I/O.
- The `sync.Mutex` in `MemoryDatabase` and concurrent requests: each database method is modelled as one atomic step, and concurrency is not modelled.
- JSON encoding and decoding (`encoding/json`) is a library. A request body is modelled as its outcome: a read error, a parse error with its message, or a decoded album. `writeJSON`'s marshal failure path (a 500) is not modelled, because marshalling an `Album` or a slice of them cannot fail.
- Response headers (`Content-Type`), the plain-text error messages of `http.Error`/`http.NotFound`, and `log.Printf` are not modelled. The missing-field list and the decoder's message are kept as payloads.
- AlbumServer.Server: holds a `MemoryDatabase`, not any implementation of the `Database` interface, because Dafny traits are not used here. The 500 paths of a failing database are covered by `AlbumsResponse`, `AlbumResponse` and `CreatedResponse`, which take any database result.
- AlbumServer.Server.GetAlbums: states only the 200 outcome, because the in-memory database never fails. The 500 outcome is stated by `AlbumsResponse`.
- `sort.Slice`'s algorithm is a library's. `SortByID` is an insertion sort with the same contract (sorted and a permutation).
- Go compares strings byte by byte in UTF-8. `Less` compares Unicode code points. The two orders agree because UTF-8 preserves code point order, but that agreement is not proved here.
- The `errorDatabase` test double and the richer variant's behaviour asserted only by `main_test.go` are not modelled: JSON error envelopes, price range checks, `Allow` headers and the `charset=utf-8` content type.

/** The album server: the handlers behind each route, how each outcome
    becomes a status code, and ServeHTTP tying routing, handlers and the
    in-memory database together. */
module AlbumServer {
  import opened Albums
  import opened Store
  import Router

  const StatusOK := 200
  const StatusCreated := 201
  const StatusBadRequest := 400
  const StatusNotFound := 404
  const StatusMethodNotAllowed := 405
  const StatusConflict := 409
  const StatusInternalServerError := 500

  /** What reading and decoding a request body produced. */
  datatype Body = ReadError | ParseError(message: string) | Parsed(album: Album)

  /** The body written after the status line, if any: JSON for albums,
      plain text (http.Error) for the missing-field list and the decoder's
      message. Other error texts are not modelled. */
  datatype Payload =
    | NoPayload
    | AlbumJSON(album: Album)
    | AlbumsJSON(albums: seq<Album>)
    | Missing(fields: seq<string>)
    | ParseMessage(message: string)

  datatype Response = Response(status: int, payload: Payload)

  /** readJSON: either the decoded album, or the response already written
      and the handler stops. */
  datatype ReadOutcome = Decoded(album: Album) | Rejected(response: Response)

  function ReadJSON(body: Body): (r: ReadOutcome)
    ensures r.Decoded? <==> body.Parsed?
    ensures r.Decoded? ==> r.album == body.album
    ensures body.ReadError? ==> r == Rejected(Response(StatusInternalServerError, NoPayload))
    ensures body.ParseError? ==> r == Rejected(Response(StatusBadRequest, ParseMessage(body.message)))
  {
    match body
    case ReadError => Rejected(Response(StatusInternalServerError, NoPayload))
    case ParseError(message) => Rejected(Response(StatusBadRequest, ParseMessage(message)))
    case Parsed(album) => Decoded(album)
  }

  /** The required fields, in the order addAlbum checks them. */
  const RequiredFields: seq<string> := ["id", "title", "artist"]

  function FieldRank(name: string): nat
  {
    if name == "id" then 0 else if name == "title" then 1 else 2
  }

  /** Names appear in the order of RequiredFields, each at most once. */
  ghost predicate InFieldOrder(names: seq<string>)
  {
    forall i, j :: 0 <= i < j < |names| ==> FieldRank(names[i]) < FieldRank(names[j])
  }

  /** `missing` names exactly the empty required fields of `album`, in the
      order id, title, artist. */
  ghost predicate ReportsMissing(album: Album, missing: seq<string>)
  {
    && (forall i :: 0 <= i < |missing| ==> missing[i] in RequiredFields)
    && ("id" in missing <==> album.id == "")
    && ("title" in missing <==> album.title == "")
    && ("artist" in missing <==> album.artist == "")
    && InFieldOrder(missing)
  }

  /** addAlbum's validation: appends the name of each empty required field. */
  method MissingFields(album: Album) returns (missing: seq<string>)
    ensures ReportsMissing(album, missing)
    ensures missing == [] <==> album.id != "" && album.title != "" && album.artist != ""
  {
    missing := [];
    if album.id == "" {
      missing := missing + ["id"];
    }
    if album.title == "" {
      missing := missing + ["title"];
    }
    if album.artist == "" {
      missing := missing + ["artist"];
    }
  }

  /** Two lists in field order naming the same fields are equal. */
  lemma {:induction false} InFieldOrderSameNamesEqual(m1: seq<string>, m2: seq<string>)
    requires forall i :: 0 <= i < |m1| ==> m1[i] in RequiredFields
    requires InFieldOrder(m1) && InFieldOrder(m2)
    requires forall f :: f in m1 <==> f in m2
    ensures m1 == m2
    decreases |m1|
  {
    SameElementsBothEmpty(m1, m2);
    if m1 != [] {
      var x, y := m1[0], m2[0];
      assert x in m2 && y in m1;
      forall f
        ensures f in m1[1..] <==> f in m2[1..]
      {
        if f in m1[1..] {
          var i :| 1 <= i < |m1| && m1[i] == f;
          assert f in m2;
          var j :| 0 <= j < |m2| && m2[j] == f;
          assert j != 0 && m2[1..][j - 1] == f;
        }
        if f in m2[1..] {
          var i :| 1 <= i < |m2| && m2[i] == f;
          assert f in m1;
          var j :| 0 <= j < |m1| && m1[j] == f;
          assert j != 0 && m1[1..][j - 1] == f;
        }
      }
      InFieldOrderSameNamesEqual(m1[1..], m2[1..]);
      assert m1 == [x] + m1[1..] && m2 == [y] + m2[1..];
    }
  }

  /** The validation outcome is determined by the album alone. */
  lemma MissingDetermined(album: Album, m1: seq<string>, m2: seq<string>)
    requires ReportsMissing(album, m1) && ReportsMissing(album, m2)
    ensures m1 == m2
  {
    InFieldOrderSameNamesEqual(m1, m2);
  }

  /** A body that sets no required field (`{}`) is missing all three, in
      the order id, title, artist. */
  lemma EmptyAlbumMissesAll(price: int, missing: seq<string>)
    requires ReportsMissing(Album("", "", "", price), missing)
    ensures missing == RequiredFields
  {
    MissingDetermined(Album("", "", "", price), missing, RequiredFields);
  }

  /** getAlbums: any database error is a 500 without albums; success is a
      200 with the albums as given. */
  function AlbumsResponse(r: Result<seq<Album>>): (resp: Response)
    ensures resp.status == StatusOK <==> r.Ok?
    ensures resp.status != StatusOK ==> resp == Response(StatusInternalServerError, NoPayload)
    ensures r.Ok? ==> resp.payload == AlbumsJSON(r.value)
  {
    if r.Err? then Response(StatusInternalServerError, NoPayload)
    else Response(StatusOK, AlbumsJSON(r.value))
  }

  /** getAlbumByID: DoesNotExist is a 404, any other error a 500; only a
      success carries an album, and it is the one the database returned. */
  function AlbumResponse(r: Result<Album>): (resp: Response)
    ensures resp.status == StatusOK <==> r.Ok?
    ensures resp.status == StatusNotFound <==> r == Err(DoesNotExist)
    ensures resp.status == StatusInternalServerError <==> r.Err? && r.error != DoesNotExist
    ensures resp.payload.AlbumJSON? <==> r.Ok?
    ensures r.Ok? ==> resp.payload.album == r.value
  {
    if r == Err(DoesNotExist) then Response(StatusNotFound, NoPayload)
    else if r.Err? then Response(StatusInternalServerError, NoPayload)
    else Response(StatusOK, AlbumJSON(r.value))
  }

  /** addAlbum after validation: AlreadyExists is a 409, any other error a
      500, success a 201 echoing the album that was sent. */
  function CreatedResponse(album: Album, r: Result<()>): (resp: Response)
    ensures resp.status == StatusCreated <==> r.Ok?
    ensures resp.status == StatusConflict <==> r == Err(AlreadyExists)
    ensures resp.status == StatusInternalServerError <==> r.Err? && r.error != AlreadyExists
    ensures resp.payload.AlbumJSON? <==> r.Ok?
    ensures r.Ok? ==> resp.payload.album == album
  {
    if r == Err(AlreadyExists) then Response(StatusConflict, NoPayload)
    else if r.Err? then Response(StatusInternalServerError, NoPayload)
    else Response(StatusCreated, AlbumJSON(album))
  }

  /** What a POST to /albums does to the stored albums and what it answers. */
  ghost predicate CreateOutcome(before: map<string, Album>, after: map<string, Album>, body: Body, resp: Response)
  {
    match ReadJSON(body)
    case Rejected(r) => resp == r && after == before
    case Decoded(a) =>
      if a.id == "" || a.title == "" || a.artist == "" then
        && resp.status == StatusBadRequest
        && resp.payload.Missing?
        && ReportsMissing(a, resp.payload.fields)
        && resp.payload.fields != []
        && after == before
      else if a.id in before then
        resp == Response(StatusConflict, NoPayload) && after == before
      else
        resp == Response(StatusCreated, AlbumJSON(a)) && after == before[a.id := a]
  }

  class Server {
    const db: MemoryDatabase

    /** NewServer */
    constructor (db: MemoryDatabase)
      ensures this.db == db
    {
      this.db := db;
    }

    /** getAlbums: the in-memory database always answers, so this is a 200
        with every album sorted by ID. */
    method GetAlbums() returns (resp: Response)
      requires db.Valid()
      ensures resp.status == StatusOK && resp.payload.AlbumsJSON?
      ensures Listing(db.albums, resp.payload.albums)
    {
      var r := db.GetAlbums();
      resp := AlbumsResponse(r);
    }

    /** getAlbumByID: the stored album with a 200, or a 404. */
    method GetAlbumByID(id: string) returns (resp: Response)
      requires db.Valid()
      ensures id in db.albums ==> resp == Response(StatusOK, AlbumJSON(db.albums[id]))
      ensures id !in db.albums ==> resp == Response(StatusNotFound, NoPayload)
      ensures resp.payload.AlbumJSON? ==> resp.payload.album.id == id
    {
      var r := db.GetAlbumByID(id);
      resp := AlbumResponse(r);
    }

    /** addAlbum: read the body, check the required fields, then insert. The
        database is not called when the body is rejected or a field is
        missing. */
    method AddAlbum(body: Body) returns (resp: Response)
      requires db.Valid()
      modifies db
      ensures db.Valid()
      ensures CreateOutcome(old(db.albums), db.albums, body, resp)
    {
      var read := ReadJSON(body);
      if read.Rejected? {
        return read.response;
      }
      var album := read.album;
      var missing := MissingFields(album);
      if |missing| > 0 {
        return Response(StatusBadRequest, Missing(missing));
      }
      var r := db.AddAlbum(album);
      resp := CreatedResponse(album, r);
    }

    /** ServeHTTP: route, then run the handler the route names. The body is
        read only by a POST to /albums; every other route ignores it. */
    method ServeHTTP(verb: string, path: string, body: Body) returns (resp: Response)
      requires db.Valid()
      modifies db
      ensures db.Valid()
      ensures !Router.Route(verb, path).AddAlbum? ==> db.albums == old(db.albums)
      ensures match Router.Route(verb, path)
        case ListAlbums =>
          resp.status == StatusOK && resp.payload.AlbumsJSON? && Listing(db.albums, resp.payload.albums)
        case AddAlbum =>
          CreateOutcome(old(db.albums), db.albums, body, resp)
        case GetAlbumByID(id) =>
          resp == if id in db.albums then Response(StatusOK, AlbumJSON(db.albums[id]))
                  else Response(StatusNotFound, NoPayload)
        case MethodNotAllowed =>
          resp == Response(StatusMethodNotAllowed, NoPayload)
        case NotFound =>
          resp == Response(StatusNotFound, NoPayload)
    {
      match Router.Route(verb, path)
      case ListAlbums =>
        resp := GetAlbums();
      case AddAlbum =>
        resp := AddAlbum(body);
      case GetAlbumByID(id) =>
        resp := GetAlbumByID(id);
      case MethodNotAllowed =>
        resp := Response(StatusMethodNotAllowed, NoPayload);
      case NotFound =>
        resp := Response(StatusNotFound, NoPayload);
    }
  }

  /** The two albums the repository's tests seed, added a2 first. */
  const A1 := Album("a1", "9th Symphony", "Beethoven", 795)
  const A2 := Album("a2", "Hey Jude", "The Beatles", 2000)
  const A9 := Album("a9", "Pianoman", "Billy Joel", 1234)

  /** The body passed with a GET: no route but POST /albums reads it. */
  const IgnoredBody: Body := ReadError

  method NewSeededServer() returns (s: Server)
    ensures fresh(s.db) && s.db.Valid()
    ensures s.db.albums == map["a2" := A2, "a1" := A1]
  {
    var db := new MemoryDatabase();
    var r2 := db.AddAlbum(A2);
    var r1 := db.AddAlbum(A1);
    s := new Server(db);
  }

  /** GET /albums lists the seeded albums by ID, not in insertion order. */
  method ListSeeded() returns (resp: Response)
    ensures resp == Response(StatusOK, AlbumsJSON([A1, A2]))
  {
    var s := NewSeededServer();
    resp := s.ServeHTTP("GET", "/albums", IgnoredBody);
    assert Router.Route("GET", "/albums") == Router.ListAlbums;
    assert Less(A1.id, A2.id) by {
      assert A1.id[0] == A2.id[0] && A1.id[1..] == "1" && A2.id[1..] == "2";
    }
    assert A1 in s.db.albums.Values && A2 in s.db.albums.Values by {
      assert s.db.albums["a1"] == A1 && s.db.albums["a2"] == A2;
    }
    assert Listing(s.db.albums, [A1, A2]);
    ListingDeterministic(s.db.albums, resp.payload.albums, [A1, A2]);
  }

  /** POST /albums with a new album answers 201 echoing it; GET
      /albums/a9 then answers 200 with the same album. */
  method CreateThenFetch() returns (created: Response, fetched: Response)
    ensures created == Response(StatusCreated, AlbumJSON(A9))
    ensures fetched == Response(StatusOK, AlbumJSON(A9))
  {
    var s := NewSeededServer();
    assert Router.Route("POST", "/albums") == Router.AddAlbum;
    created := s.ServeHTTP("POST", "/albums", Parsed(A9));
    Router.ItemRouteRoundTrip("a9");
    fetched := s.ServeHTTP("GET", Router.ItemPrefix + "a9", IgnoredBody);
  }

  /** POST /albums with a taken ID answers 409 and the stored album is
      still the first one. */
  method ConflictKeepsFirst() returns (conflict: Response, fetched: Response)
    ensures conflict == Response(StatusConflict, NoPayload)
    ensures fetched == Response(StatusOK, AlbumJSON(A2))
  {
    var s := NewSeededServer();
    assert Router.Route("POST", "/albums") == Router.AddAlbum;
    conflict := s.ServeHTTP("POST", "/albums", Parsed(Album("a2", "Foo", "Bar", 0)));
    Router.ItemRouteRoundTrip("a2");
    fetched := s.ServeHTTP("GET", Router.ItemPrefix + "a2", IgnoredBody);
  }
}

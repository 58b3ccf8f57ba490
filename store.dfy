/** The in-memory album database: a map from album ID to album, with the
    three operations of the Database interface. Each method is one atomic
    step (the mutex that makes it so is not modelled). */
module Store {
  import opened Albums

  /** Every album is filed under its own ID. */
  ghost predicate Keyed(m: map<string, Album>)
  {
    forall k :: k in m ==> m[k].id == k
  }

  /** No later element has a smaller ID than an earlier one. */
  ghost predicate SortedByID(s: seq<Album>)
  {
    forall i, j :: 0 <= i < j < |s| ==> !Less(s[j].id, s[i].id)
  }

  /** IDs strictly increase along the sequence. */
  ghost predicate StrictlyAscending(s: seq<Album>)
  {
    forall i, j :: 0 <= i < j < |s| ==> Less(s[i].id, s[j].id)
  }

  /** What GetAlbums promises: a copy of all the albums, one per ID,
      sorted by ID. */
  ghost predicate Listing(m: map<string, Album>, r: seq<Album>)
  {
    && |r| == |m|
    && (forall a :: a in r <==> a in m.Values)
    && StrictlyAscending(r)
  }

  /** Two equal elements at different positions count twice. */
  lemma RepeatCountsTwice<T>(s: seq<T>, i: nat, j: nat)
    requires i < j < |s| && s[i] == s[j]
    ensures multiset(s)[s[i]] >= 2
  {
    assert s == s[..j] + s[j..];
    assert s[i] == s[..j][i];
    assert s[j] == s[j..][0];
    assert multiset(s) == multiset(s[..j]) + multiset(s[j..]);
  }

  /** Two ID-ascending sequences holding the same albums are the same
      sequence: sorting by ID leaves no freedom. */
  lemma {:induction false} AscendingSameAlbumsEqual(r1: seq<Album>, r2: seq<Album>)
    requires StrictlyAscending(r1) && StrictlyAscending(r2)
    requires forall a :: a in r1 <==> a in r2
    ensures r1 == r2
    decreases |r1|
  {
    SameElementsBothEmpty(r1, r2);
    if r1 != [] {
      var x, y := r1[0], r2[0];
      assert x in r2 && y in r1;
      if x != y {
        var k :| 0 <= k < |r2| && r2[k] == x;
        var m :| 0 <= m < |r1| && r1[m] == y;
        assert Less(y.id, x.id) && Less(x.id, y.id);
        LessAsymmetric(x.id, y.id);
        assert false;
      }
      forall a
        ensures a in r1[1..] <==> a in r2[1..]
      {
        if a in r1[1..] {
          var i :| 1 <= i < |r1| && r1[i] == a;
          LessIrreflexive(a.id);
          assert a in r2;
          var j :| 0 <= j < |r2| && r2[j] == a;
          assert j != 0 && r2[1..][j - 1] == a;
        }
        if a in r2[1..] {
          var i :| 1 <= i < |r2| && r2[i] == a;
          LessIrreflexive(a.id);
          assert a in r1;
          var j :| 0 <= j < |r1| && r1[j] == a;
          assert j != 0 && r1[1..][j - 1] == a;
        }
      }
      AscendingSameAlbumsEqual(r1[1..], r2[1..]);
      assert r1 == [x] + r1[1..] && r2 == [y] + r2[1..];
    }
  }

  /** GetAlbums' answer is determined by the stored albums alone, whatever
      order the map is traversed in. */
  lemma ListingDeterministic(m: map<string, Album>, r1: seq<Album>, r2: seq<Album>)
    requires Listing(m, r1) && Listing(m, r2)
    ensures r1 == r2
  {
    AscendingSameAlbumsEqual(r1, r2);
  }

  /** Sorting a copy of the stored albums, each of them once, by ID gives
      the listing GetAlbums promises: IDs are distinct because every album
      is filed under its own ID. */
  lemma SortedCopyIsListing(m: map<string, Album>, copied: seq<Album>, sorted: seq<Album>)
    requires Keyed(m)
    requires |copied| == |m|
    requires forall a :: a in copied <==> a in m.Values
    requires forall x :: multiset(copied)[x] <= 1
    requires SortedByID(sorted) && multiset(sorted) == multiset(copied)
    ensures Listing(m, sorted)
  {
    forall x
      ensures x in sorted <==> x in copied
    {
      assert x in sorted <==> x in multiset(sorted);
      assert x in copied <==> x in multiset(copied);
    }
    assert |sorted| == |multiset(sorted)| == |multiset(copied)| == |copied|;
    forall i, j | 0 <= i < j < |sorted|
      ensures Less(sorted[i].id, sorted[j].id)
    {
      if sorted[i].id == sorted[j].id {
        assert sorted[i] in m.Values && sorted[j] in m.Values;
        assert sorted[i] == m[sorted[i].id] && sorted[j] == m[sorted[j].id];
        RepeatCountsTwice(sorted, i, j);
        assert false;
      }
      LessTotal(sorted[i].id, sorted[j].id);
    }
  }

  /** Sorting the albums by ID in place (Go's sort.Slice with an ID
      comparison): the result is sorted and a permutation of the input. */
  method SortByID(a: array<Album>)
    modifies a
    ensures SortedByID(a[..])
    ensures multiset(a[..]) == old(multiset(a[..]))
  {
    var i := 0;
    while i < a.Length
      invariant 0 <= i <= a.Length
      invariant forall p, q :: 0 <= p < q < i ==> !Less(a[q].id, a[p].id)
      invariant multiset(a[..]) == old(multiset(a[..]))
    {
      InsertByID(a, i);
      i := i + 1;
    }
  }

  /** One insertion step: with a[..i] sorted, moves a[i] back past every
      album with a larger ID, so that a[..i + 1] is sorted. */
  method InsertByID(a: array<Album>, i: nat)
    requires i < a.Length
    requires forall p, q :: 0 <= p < q < i ==> !Less(a[q].id, a[p].id)
    modifies a
    ensures forall p, q :: 0 <= p < q <= i ==> !Less(a[q].id, a[p].id)
    ensures multiset(a[..]) == old(multiset(a[..]))
  {
    var j := i;
    while j > 0 && Less(a[j].id, a[j - 1].id)
      invariant 0 <= j <= i
      invariant forall p, q :: 0 <= p < q <= i && p != j && q != j ==> !Less(a[q].id, a[p].id)
      invariant forall q :: j < q <= i ==> !Less(a[q].id, a[j].id)
      invariant multiset(a[..]) == old(multiset(a[..]))
    {
      LessAsymmetric(a[j].id, a[j - 1].id);
      a[j - 1], a[j] := a[j], a[j - 1];
      j := j - 1;
    }
    forall p | 0 <= p < j
      ensures !Less(a[j].id, a[p].id)
    {
      if p < j - 1 {
        NotLessTransitive(a[p].id, a[j - 1].id, a[j].id);
      }
    }
  }

  class MemoryDatabase {
    var albums: map<string, Album>

    ghost predicate Valid()
      reads this
    {
      Keyed(albums)
    }

    /** NewMemoryDatabase: an empty database. */
    constructor ()
      ensures Valid() && albums == map[]
    {
      albums := map[];
    }

    /** A copy of all albums, sorted by ID. The in-memory database never
        fails, and it changes nothing (no modifies clause). */
    method GetAlbums() returns (r: Result<seq<Album>>)
      requires Valid()
      ensures r.Ok? && Listing(albums, r.value)
    {
      // Copy the map's values in an arbitrary order, as ranging over a Go map does
      var rest := albums.Keys;
      var copied: seq<Album> := [];
      while rest != {}
        invariant rest <= albums.Keys
        invariant |copied| + |rest| == |albums|
        invariant forall i :: 0 <= i < |copied| ==> copied[i].id in albums && copied[i].id !in rest && albums[copied[i].id] == copied[i]
        invariant forall k :: k in albums && k !in rest ==> albums[k] in copied
        invariant forall x :: multiset(copied)[x] <= 1
        decreases |rest|
      {
        var k :| k in rest;
        copied := copied + [albums[k]];
        rest := rest - {k};
      }
      forall x
        ensures x in copied <==> x in albums.Values
      {
        if x in albums.Values {
          var k :| k in albums && albums[k] == x;
          assert albums[k] in copied;
        }
        if x in copied {
          var i :| 0 <= i < |copied| && copied[i] == x;
          assert albums[x.id] == x;
        }
      }
      var a := new Album[|copied|](i requires 0 <= i < |copied| => copied[i]);
      assert a[..] == copied;
      SortByID(a);
      SortedCopyIsListing(albums, copied, a[..]);
      r := Ok(a[..]);
    }

    /** The album stored under `id`, or DoesNotExist; never a default album. */
    method GetAlbumByID(id: string) returns (r: Result<Album>)
      requires Valid()
      ensures r.Ok? <==> id in albums
      ensures r.Ok? ==> r.value == albums[id] && r.value.id == id
      ensures r.Err? ==> r.error == DoesNotExist
    {
      if id !in albums {
        return Err(DoesNotExist);
      }
      r := Ok(albums[id]);
    }

    /** Adds an album unless one with its ID exists; then fails with
        AlreadyExists and overwrites nothing. */
    method AddAlbum(album: Album) returns (r: Result<()>)
      requires Valid()
      modifies this
      ensures Valid()
      ensures album.id in old(albums) ==> r == Err(AlreadyExists) && albums == old(albums)
      ensures album.id !in old(albums) ==> r == Ok(()) && albums == old(albums)[album.id := album]
    {
      if album.id in albums {
        return Err(AlreadyExists);
      }
      albums := albums[album.id := album];
      r := Ok(());
    }
  }

  /** Adding an album under a fresh ID and then asking for that ID gives the
      album back unchanged; every other album stays as it was. */
  method AddThenGet(db: MemoryDatabase, album: Album) returns (added: Result<()>, got: Result<Album>)
    requires db.Valid() && album.id !in db.albums
    modifies db
    ensures db.Valid()
    ensures added == Ok(()) && got == Ok(album)
    ensures forall k :: k in old(db.albums) ==> k in db.albums && db.albums[k] == old(db.albums)[k]
  {
    added := db.AddAlbum(album);
    got := db.GetAlbumByID(album.id);
  }

  /** Adding an album whose ID is taken fails, and the first album is still
      the one returned for that ID. */
  method AddTwiceKeepsFirst(db: MemoryDatabase, first: Album, second: Album) returns (r1: Result<()>, r2: Result<()>, got: Result<Album>)
    requires db.Valid() && first.id !in db.albums && second.id == first.id
    modifies db
    ensures db.Valid()
    ensures r1 == Ok(()) && r2 == Err(AlreadyExists) && got == Ok(first)
  {
    r1 := db.AddAlbum(first);
    r2 := db.AddAlbum(second);
    got := db.GetAlbumByID(first.id);
  }
}

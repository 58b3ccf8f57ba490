/** The album entity, the errors a database reports, and the order in which
    album IDs are compared. */
module Albums {

  /** One album. The price is in minor currency units (cents); it is never
      computed with, so an unbounded int stands for Go's int. */
  datatype Album = Album(id: string, title: string, artist: string, price: int)

  /** The errors a Database implementation returns: the two sentinel errors
      and any other error (a backend failure), which carries its message. */
  datatype DbError = DoesNotExist | AlreadyExists | Other(message: string)

  /** A Go (value, error) pair: exactly one of the two is meaningful. */
  datatype Result<T> = Ok(value: T) | Err(error: DbError)

  /** Go's `<` on strings: lexicographic, a proper prefix comes first.
      Go compares the UTF-8 bytes; comparing code points gives the same
      order, because UTF-8 encoding preserves code point order. */
  predicate Less(a: string, b: string)
    ensures |a| < |b| && a == b[..|a|] ==> Less(a, b)
    decreases |a|
  {
    if a == [] then b != []
    else if b == [] then false
    else if a[0] != b[0] then a[0] < b[0]
    else
      assert |a| < |b| && a == b[..|a|] ==> a[1..] == b[1..][..|a| - 1];
      Less(a[1..], b[1..])
  }

  lemma {:induction false} LessIrreflexive(a: string)
    ensures !Less(a, a)
    decreases |a|
  {
    if a != [] {
      LessIrreflexive(a[1..]);
    }
  }

  lemma {:induction false} LessAsymmetric(a: string, b: string)
    ensures Less(a, b) ==> !Less(b, a)
    decreases |a|
  {
    if a != [] && b != [] && a[0] == b[0] {
      LessAsymmetric(a[1..], b[1..]);
    }
  }

  lemma {:induction false} LessTransitive(a: string, b: string, c: string)
    requires Less(a, b) && Less(b, c)
    ensures Less(a, c)
    decreases |a|
  {
    if a != [] && a[0] == b[0] && b[0] == c[0] {
      LessTransitive(a[1..], b[1..], c[1..]);
    }
  }

  /** Any two different strings are ordered one way or the other. */
  lemma {:induction false} LessTotal(a: string, b: string)
    ensures a == b || Less(a, b) || Less(b, a)
    decreases |a|
  {
    if a != [] && b != [] && a[0] == b[0] {
      LessTotal(a[1..], b[1..]);
      assert a == [a[0]] + a[1..] && b == [b[0]] + b[1..];
    }
  }

  /** "Not after" is transitive: the step an insertion sort relies on. */
  lemma NotLessTransitive(a: string, b: string, c: string)
    requires !Less(b, a) && !Less(c, b)
    ensures !Less(c, a)
  {
    LessTotal(a, b);
    LessTotal(b, c);
    if a != b && b != c {
      LessTransitive(a, b, c);
      LessAsymmetric(a, c);
    }
  }

  /** Two sequences with the same elements are empty together. */
  lemma SameElementsBothEmpty<T>(s1: seq<T>, s2: seq<T>)
    requires forall x :: x in s1 <==> x in s2
    ensures s1 == [] <==> s2 == []
  {
    if s1 != [] {
      assert s1[0] in s2;
    }
    if s2 != [] {
      assert s2[0] in s1;
    }
  }
}

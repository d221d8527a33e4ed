/**
 * The book record as the repository and the view models read it, the
 * exception type of the repository calls, the abstract great-circle
 * distance, and the one ordering ("newest first") that the listener and
 * both feeds share.
 */
module Books {
  import opened Wrappers
  import Seqs

  /**
   * A book listing. `id` is the store's document id, stamped on read;
   * `createdAt` is the creation timestamp in milliseconds since the epoch
   * (`createdAt.toDate().time`); `lat`/`lng` are absent when the owner
   * gave no coordinates.
   */
  datatype Book = Book(
    id: Option<string>,
    title: string,
    author: string,
    desc: string,
    category: string,
    imageUrls: seq<string>,
    ownerId: string,
    addressText: string,
    isAvailable: bool,
    lat: Option<real>,
    lng: Option<real>,
    createdAt: int)

  /** A picked image, as the content URI the uploader reads. */
  type Uri = string

  /** A thrown exception, seen through its `localizedMessage` (which may be null). */
  datatype Error = Error(message: Option<string>)

  /**
   * A great-circle distance `(lat1, lng1, lat2, lng2)`. The haversine
   * arithmetic is not modelled: every operation that ranks by distance
   * takes the distance function as a parameter.
   */
  type DistanceFn = (real, real, real, real) -> real

  /** Kotlin's `Double.MAX_VALUE`, the sort key of an unknown distance. */
  const MaxDouble: real := 179769313486231570814527423731704356798070567525844996598917476803157260780028538760589558632766878171540458953514382464234321326889464182768467546703537516986049910576551282076245490090389328944075868508455133942304583236903222948165808559332123348274797826204144723168738177180919299881250404026184124858368.0

  /** A distance function whose values are genuine distances, never as large as `Double.MAX_VALUE`. */
  ghost predicate Bounded(dist: DistanceFn) {
    forall a, b, c, d :: 0.0 <= dist(a, b, c, d) < MaxDouble
  }

  /** A distance function that never returns a negative value. */
  ghost predicate NonNegative(dist: DistanceFn) {
    forall a, b, c, d :: 0.0 <= dist(a, b, c, d)
  }

  /** The comparator of `sortedByDescending { it.createdAt.toDate().time }`. */
  function NewerOrSame(): (Book, Book) -> bool {
    (a: Book, b: Book) => a.createdAt >= b.createdAt
  }

  /** `sortedByDescending { createdAt }`: the same books, newest first. */
  function NewestFirst(books: seq<Book>): (r: seq<Book>)
    ensures multiset(r) == multiset(books)
    ensures forall i, j :: 0 <= i < j < |r| ==> r[i].createdAt >= r[j].createdAt
  {
    Seqs.SortSorted(books, NewerOrSame());
    Seqs.Sort(books, NewerOrSame())
  }

  /** A list that is already newest-first comes back unchanged. */
  lemma NewestFirstIdempotent(books: seq<Book>)
    ensures NewestFirst(NewestFirst(books)) == NewestFirst(books)
  {
    var r := NewestFirst(books);
    assert Seqs.SortedBy(r, NewerOrSame());
    Seqs.SortOfSorted(r, NewerOrSame());
  }
}

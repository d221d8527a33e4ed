/**
 * `DiscoverViewModel`: the `filtered` feed (available books, a trimmed,
 * lower-cased query against title and category, a case-insensitive
 * category, newest first or nearest first), the `categories` list, and the
 * view model's state: which inputs cause a recomputation and which do not.
 */
module Discover {
  import opened Wrappers
  import opened Books
  import opened Text
  import Seqs
  import Repository

  /** `DiscoverSort`. */
  datatype DiscoverSort = Newest | Nearest

  // ---------------------------------------------------------------------
  // The combine body
  // ---------------------------------------------------------------------

  /**
   * `bookDistanceMeters`: unknown when the book or the user lacks a
   * coordinate, else the distance from the user to the book.
   */
  function BookDistance(b: Book, userLat: Option<real>, userLng: Option<real>, dist: DistanceFn): (d: Option<real>)
    ensures d.None? <==> b.lat.None? || b.lng.None? || userLat.None? || userLng.None?
    ensures d.Some? ==> d.value == dist(userLat.value, userLng.value, b.lat.value, b.lng.value)
  {
    if b.lat.None? || b.lng.None? || userLat.None? || userLng.None? then None
    else Some(dist(userLat.value, userLng.value, b.lat.value, b.lng.value))
  }

  /** The sort key of NEAREST: `bookDistanceMeters(it) ?: Double.MAX_VALUE`. */
  function NearestKey(b: Book, userLat: Option<real>, userLng: Option<real>, dist: DistanceFn): real {
    BookDistance(b, userLat, userLng, dist).GetOr(MaxDouble)
  }

  /** The comparator `compareBy { NearestKey }`. */
  function NearerOrSame(userLat: Option<real>, userLng: Option<real>, dist: DistanceFn): (Book, Book) -> bool {
    (a: Book, b: Book) => NearestKey(a, userLat, userLng, dist) <= NearestKey(b, userLat, userLng, dist)
  }

  predicate Available(b: Book) {
    b.isAvailable
  }

  /** The query stage: `q.trim().lowercase()` blank, or found in the lower-cased title or category. */
  predicate MatchesQuery(b: Book, q: string) {
    var qq := Lower(Trim(q));
    IsBlank(qq) || Contains(Lower(b.title), qq) || Contains(Lower(b.category), qq)
  }

  /** The category stage: `cat.trim()` blank, or equal to the book's category ignoring case. */
  predicate MatchesCategory(b: Book, cat: string) {
    var c := Trim(cat);
    IsBlank(c) || EqualsIgnoreCase(b.category, c)
  }

  /** A book the three filter stages let through. */
  predicate Keeps(b: Book, q: string, cat: string) {
    Available(b) && MatchesQuery(b, q) && MatchesCategory(b, cat)
  }

  /** The books the three filter stages let through, in their original order. */
  function Candidates(books: seq<Book>, q: string, cat: string): seq<Book> {
    if books == [] then []
    else (if Keeps(books[0], q, cat) then [books[0]] else []) + Candidates(books[1..], q, cat)
  }

  /**
   * `Candidates` is the source's chain of three `filter` calls: available,
   * then matching the query, then matching the category.
   */
  lemma CandidatesAreStagedFilters(books: seq<Book>, q: string, cat: string)
    ensures Candidates(books, q, cat) ==
            Seqs.Filter(Seqs.Filter(Seqs.Filter(books, Available), (b: Book) => MatchesQuery(b, q)),
                        (b: Book) => MatchesCategory(b, cat))
  {
    var mq := (b: Book) => MatchesQuery(b, q);
    var mc := (b: Book) => MatchesCategory(b, cat);
    var aq := (b: Book) => Available(b) && MatchesQuery(b, q);
    var keeps := (b: Book) => Keeps(b, q, cat);
    Seqs.FilterFilter(books, Available, mq, aq);
    Seqs.FilterFilter(books, aq, mc, keeps);
    CandidatesIsFilter(books, q, cat, keeps);
  }

  lemma {:induction false} CandidatesIsFilter(books: seq<Book>, q: string, cat: string, keeps: Book -> bool)
    requires forall b :: keeps(b) == Keeps(b, q, cat)
    ensures Candidates(books, q, cat) == Seqs.Filter(books, keeps)
  {
    if books != [] {
      CandidatesIsFilter(books[1..], q, cat, keeps);
    }
  }

  /** Each book occurs in `Candidates` as often as in the input if it passes every stage, else never. */
  lemma {:induction false} CandidatesCount(books: seq<Book>, q: string, cat: string, b: Book)
    ensures multiset(Candidates(books, q, cat))[b] == if Keeps(b, q, cat) then multiset(books)[b] else 0
  {
    if books != [] {
      CandidatesCount(books[1..], q, cat, b);
      assert books == [books[0]] + books[1..];
    }
  }

  /** A list whose every book passes the stages comes through unchanged. */
  lemma {:induction false} CandidatesAllKeep(books: seq<Book>, q: string, cat: string)
    requires forall i :: 0 <= i < |books| ==> Keeps(books[i], q, cat)
    ensures Candidates(books, q, cat) == books
  {
    if books != [] {
      CandidatesAllKeep(books[1..], q, cat);
    }
  }

  /** The `combine` body behind `filtered`, with the location it reads passed in. */
  function Filtered(books: seq<Book>, q: string, cat: string, sort: DiscoverSort,
                    userLat: Option<real>, userLng: Option<real>, dist: DistanceFn): seq<Book>
  {
    var candidates := Candidates(books, q, cat);
    match sort
    case Newest => NewestFirst(candidates)
    case Nearest => Seqs.Sort(candidates, NearerOrSame(userLat, userLng, dist))
  }

  /**
   * `filtered` holds exactly the books that pass every stage, each as
   * often as in the input: a reordering of a sub-multiset of the input.
   */
  lemma FilteredContents(books: seq<Book>, q: string, cat: string, sort: DiscoverSort,
                         userLat: Option<real>, userLng: Option<real>, dist: DistanceFn, b: Book)
    ensures multiset(Filtered(books, q, cat, sort, userLat, userLng, dist))[b] ==
            if Keeps(b, q, cat) then multiset(books)[b] else 0
  {
    CandidatesCount(books, q, cat, b);
  }

  /** What a kept book satisfies, stage by stage, in terms of the raw query and category. */
  lemma KeepsMeans(b: Book, q: string, cat: string)
    requires Keeps(b, q, cat)
    ensures b.isAvailable
    ensures !IsBlank(q) ==> Contains(Lower(b.title), Lower(Trim(q))) || Contains(Lower(b.category), Lower(Trim(q)))
    ensures !IsBlank(cat) ==> EqualsIgnoreCase(b.category, Trim(cat))
  {
    if !IsBlank(q) {
      MatchedQueryMeans(b, q);
    }
  }

  /** A query that is not blank is matched only by a book whose title or category contains it. */
  lemma MatchedQueryMeans(b: Book, q: string)
    requires MatchesQuery(b, q) && !IsBlank(q)
    ensures Contains(Lower(b.title), Lower(Trim(q))) || Contains(Lower(b.category), Lower(Trim(q)))
  {
    var qq := Lower(Trim(q));
    QueryNotBlank(q);
    assert !IsBlank(qq);
  }

  /** A query that is not blank stays not blank once trimmed and lower-cased. */
  lemma QueryNotBlank(q: string)
    requires !IsBlank(q)
    ensures !IsBlank(Lower(Trim(q)))
  {
    TrimEnds(q);
    assert Lower(Trim(q))[0] == LowerChar(Trim(q)[0]);
  }

  /** What every book in `filtered` satisfies, stage by stage. */
  lemma FilteredSound(books: seq<Book>, q: string, cat: string, sort: DiscoverSort,
                      userLat: Option<real>, userLng: Option<real>, dist: DistanceFn)
    ensures var r := Filtered(books, q, cat, sort, userLat, userLng, dist);
            forall i :: 0 <= i < |r| ==>
              && r[i].isAvailable
              && (!IsBlank(q) ==> Contains(Lower(r[i].title), Lower(Trim(q))) ||
                                  Contains(Lower(r[i].category), Lower(Trim(q))))
              && (!IsBlank(cat) ==> EqualsIgnoreCase(r[i].category, Trim(cat)))
  {
    var r := Filtered(books, q, cat, sort, userLat, userLng, dist);
    forall i | 0 <= i < |r|
      ensures && r[i].isAvailable
              && (!IsBlank(q) ==> Contains(Lower(r[i].title), Lower(Trim(q))) ||
                                  Contains(Lower(r[i].category), Lower(Trim(q))))
              && (!IsBlank(cat) ==> EqualsIgnoreCase(r[i].category, Trim(cat)))
    {
      FilteredContents(books, q, cat, sort, userLat, userLng, dist, r[i]);
      assert r[i] in multiset(r);
      KeepsMeans(r[i], q, cat);
    }
  }

  /** With a blank query and a blank category, `filtered` is a reordering of the available books. */
  lemma BlankFiltersKeepAvailable(books: seq<Book>, q: string, cat: string, sort: DiscoverSort,
                                  userLat: Option<real>, userLng: Option<real>, dist: DistanceFn)
    requires IsBlank(q) && IsBlank(cat)
    ensures multiset(Filtered(books, q, cat, sort, userLat, userLng, dist)) ==
            multiset(Seqs.Filter(books, Available))
  {
    var r := Filtered(books, q, cat, sort, userLat, userLng, dist);
    var avail := Seqs.Filter(books, Available);
    forall b
      ensures multiset(r)[b] == multiset(avail)[b]
    {
      FilteredContents(books, q, cat, sort, userLat, userLng, dist, b);
      Seqs.FilterCount(books, Available, b);
      BlankKeepsAvailable(b, q, cat);
    }
    assert multiset(r) == multiset(avail);
  }

  /** With a blank query and a blank category, only availability decides. */
  lemma BlankKeepsAvailable(b: Book, q: string, cat: string)
    requires IsBlank(q) && IsBlank(cat)
    ensures Keeps(b, q, cat) == Available(b)
  {
    assert Trim(q) == [] && Trim(cat) == [];
    assert Lower(Trim(q)) == [];
  }

  /** NEWEST: `createdAt` never increases along `filtered`. */
  lemma NewestOrder(books: seq<Book>, q: string, cat: string,
                    userLat: Option<real>, userLng: Option<real>, dist: DistanceFn)
    ensures var r := Filtered(books, q, cat, Newest, userLat, userLng, dist);
            forall i, j :: 0 <= i < j < |r| ==> r[i].createdAt >= r[j].createdAt
  {
  }

  /**
   * NEAREST: every book of known distance comes before every book of
   * unknown distance, and known distances never decrease.
   */
  lemma NearestOrder(books: seq<Book>, q: string, cat: string,
                     userLat: Option<real>, userLng: Option<real>, dist: DistanceFn)
    requires Bounded(dist)
    ensures var r := Filtered(books, q, cat, Nearest, userLat, userLng, dist);
            forall i, j :: 0 <= i < j < |r| ==>
              && (BookDistance(r[j], userLat, userLng, dist).Some? ==> BookDistance(r[i], userLat, userLng, dist).Some?)
              && (BookDistance(r[i], userLat, userLng, dist).Some? && BookDistance(r[j], userLat, userLng, dist).Some? ==>
                    BookDistance(r[i], userLat, userLng, dist).value <= BookDistance(r[j], userLat, userLng, dist).value)
  {
    var le := NearerOrSame(userLat, userLng, dist);
    var r := Seqs.Sort(Candidates(books, q, cat), le);
    Seqs.SortSorted(Candidates(books, q, cat), le);
    forall i, j | 0 <= i < j < |r|
      ensures BookDistance(r[j], userLat, userLng, dist).Some? ==> BookDistance(r[i], userLat, userLng, dist).Some?
    {
      assert le(r[i], r[j]);
      var dj := BookDistance(r[j], userLat, userLng, dist);
      if dj.Some? {
        var b := r[j];
        var w, x, y, z := userLat.value, userLng.value, b.lat.value, b.lng.value;
        assert dj.value == dist(w, x, y, z);
        assert dist(w, x, y, z) < MaxDouble;
      }
    }
  }

  /** Running the pipeline on its own output changes nothing. */
  lemma FilteredIdempotent(books: seq<Book>, q: string, cat: string, sort: DiscoverSort,
                           userLat: Option<real>, userLng: Option<real>, dist: DistanceFn)
    ensures var r := Filtered(books, q, cat, sort, userLat, userLng, dist);
            Filtered(r, q, cat, sort, userLat, userLng, dist) == r
  {
    var r := Filtered(books, q, cat, sort, userLat, userLng, dist);
    FilteredSound(books, q, cat, sort, userLat, userLng, dist);
    forall i | 0 <= i < |r| ensures Keeps(r[i], q, cat) {
      FilteredContents(books, q, cat, sort, userLat, userLng, dist, r[i]);
      assert r[i] in multiset(r);
    }
    CandidatesAllKeep(r, q, cat);
    match sort {
      case Newest =>
        assert Seqs.SortedBy(r, NewerOrSame());
        Seqs.SortOfSorted(r, NewerOrSame());
      case Nearest =>
        var le := NearerOrSame(userLat, userLng, dist);
        Seqs.SortSorted(Candidates(books, q, cat), le);
        Seqs.SortOfSorted(r, le);
    }
  }

  // ---------------------------------------------------------------------
  // categories
  // ---------------------------------------------------------------------

  predicate NotBlank(s: string) {
    !IsBlank(s)
  }

  /** The comparator of `sorted()` on strings. */
  function StringOrder(): (string, string) -> bool {
    (a: string, b: string) => LexLe(a, b)
  }

  lemma StringOrderIsTotalPreorder()
    ensures Seqs.TotalPreorder(StringOrder())
  {
    forall a, b ensures LexLe(a, b) || LexLe(b, a) {
      LexLeTotal(a, b);
    }
    forall a, b, c | LexLe(a, b) && LexLe(b, c) ensures LexLe(a, c) {
      LexLeTransitive(a, b, c);
    }
  }

  /** `map { it.category }.filter { it.isNotBlank() }`. */
  function NonBlankCategories(books: seq<Book>): seq<string> {
    if books == [] then []
    else (if NotBlank(books[0].category) then [books[0].category] else []) + NonBlankCategories(books[1..])
  }

  /** A string is listed exactly when it is the non-blank category of some book. */
  lemma {:induction false} NonBlankCategoriesMember(books: seq<Book>, c: string)
    ensures c in NonBlankCategories(books) <==> !IsBlank(c) && exists b :: b in books && b.category == c
  {
    if books != [] {
      NonBlankCategoriesMember(books[1..], c);
      assert books == [books[0]] + books[1..];
      assert forall b :: b in books <==> b == books[0] || b in books[1..];
    }
  }

  /** `list.map { it.category }.filter { it.isNotBlank() }.distinct().sorted()` */
  function CategoryList(books: seq<Book>): seq<string> {
    Seqs.Sort(Seqs.Distinct(NonBlankCategories(books)), StringOrder())
  }

  /** `categories` is strictly increasing, so free of duplicates. */
  lemma CategoryListOrdered(books: seq<Book>)
    ensures var r := CategoryList(books);
            forall i, j :: 0 <= i < j < |r| ==> LexLe(r[i], r[j]) && r[i] != r[j]
  {
    var distinct := Seqs.Distinct(NonBlankCategories(books));
    var r := Seqs.Sort(distinct, StringOrder());
    StringOrderIsTotalPreorder();
    Seqs.SortSorted(distinct, StringOrder());
    Seqs.PermutationNoDuplicates(distinct, r);
  }

  /** Every entry of `categories` is the non-blank category of some book. */
  lemma CategoryListFromBooks(books: seq<Book>)
    ensures var r := CategoryList(books);
            forall i :: 0 <= i < |r| ==> !IsBlank(r[i]) && exists b :: b in books && b.category == r[i]
  {
    var nonBlank := NonBlankCategories(books);
    var distinct := Seqs.Distinct(nonBlank);
    var r := Seqs.Sort(distinct, StringOrder());
    StringOrderIsTotalPreorder();
    Seqs.SortSorted(distinct, StringOrder());
    forall i | 0 <= i < |r| ensures !IsBlank(r[i]) && exists b :: b in books && b.category == r[i] {
      assert r[i] in multiset(distinct);
      assert r[i] in nonBlank;
      NonBlankCategoriesMember(books, r[i]);
    }
  }

  /** Every non-blank category of a book is in `categories`. */
  lemma CategoryListComplete(books: seq<Book>)
    ensures forall b :: b in books && !IsBlank(b.category) ==> b.category in CategoryList(books)
  {
    var distinct := Seqs.Distinct(NonBlankCategories(books));
    var r := Seqs.Sort(distinct, StringOrder());
    StringOrderIsTotalPreorder();
    Seqs.SortSorted(distinct, StringOrder());
    forall b | b in books && !IsBlank(b.category) ensures b.category in r {
      NonBlankCategoriesMember(books, b.category);
      assert b.category in multiset(distinct);
    }
  }

  // ---------------------------------------------------------------------
  // The view model
  // ---------------------------------------------------------------------

  /**
   * The state of `DiscoverViewModel`. `filtered` is recomputed when
   * `allBooks`, `query`, `selectedCategory` or `sort` takes a new value
   * (each is a state flow, so re-setting an equal value emits nothing), and
   * reads the location as it is at that moment; the location is not an
   * input of the `combine`, so setting it alone does not recompute.
   */
  class DiscoverViewModel {
    const distance: DistanceFn
    var allBooks: seq<Book>
    var query: string
    var selectedCategory: string
    var sort: DiscoverSort
    var userLat: Option<real>
    var userLng: Option<real>
    var categories: seq<string>
    var filtered: seq<Book>
    /** The location `filtered` was last computed with. */
    ghost var rankedLat: Option<real>
    ghost var rankedLng: Option<real>

    /** `categories` is derived from the current list. */
    ghost predicate CategoriesInSync()
      reads this`allBooks, this`categories
    {
      categories == CategoryList(allBooks)
    }

    /** `filtered` is the `combine` of the current inputs, at the location last used. */
    ghost predicate FilteredInSync()
      reads this`allBooks, this`query, this`selectedCategory, this`sort, this`filtered
      reads this`rankedLat, this`rankedLng
    {
      filtered == Filtered(allBooks, query, selectedCategory, sort, rankedLat, rankedLng, distance)
    }

    ghost predicate Valid()
      reads this`allBooks, this`query, this`selectedCategory, this`sort, this`categories, this`filtered
      reads this`rankedLat, this`rankedLng
    {
      CategoriesInSync() && FilteredInSync()
    }

    constructor(distance: DistanceFn)
      ensures Valid()
      ensures this.distance == distance
      ensures allBooks == [] && query == "" && selectedCategory == "" && sort == Newest
      ensures userLat == None && userLng == None
      ensures categories == [] && filtered == []
    {
      this.distance := distance;
      allBooks := [];
      query := "";
      selectedCategory := "";
      sort := Newest;
      userLat := None;
      userLng := None;
      categories := [];
      filtered := [];
      rankedLat := None;
      rankedLng := None;
    }

    /** Recomputes `filtered` from the current inputs and location. */
    method Recompute()
      modifies this`filtered, this`rankedLat, this`rankedLng
      ensures rankedLat == userLat && rankedLng == userLng
      ensures FilteredInSync()
    {
      var la, ln := userLat, userLng;
      rankedLat, rankedLng := la, ln;
      filtered := Filtered(allBooks, query, selectedCategory, sort, la, ln, distance);
    }

    /** A new list from `allBooksFlow`: `categories` and `filtered` follow it. */
    method OnBooks(books: seq<Book>)
      requires Valid()
      modifies this`allBooks, this`categories, this`filtered, this`rankedLat, this`rankedLng
      ensures Valid()
      ensures books == old(allBooks) ==> unchanged(this)
      ensures books != old(allBooks) ==>
                && allBooks == books
                && categories == CategoryList(books)
                && filtered == Filtered(books, query, selectedCategory, sort, userLat, userLng, distance)
    {
      if books != allBooks {
        allBooks := books;
        categories := CategoryList(books);
        Recompute();
      }
    }

    /** `query.value = q`. `categories` does not depend on it. */
    method SetQuery(q: string)
      requires Valid()
      modifies this`query, this`filtered, this`rankedLat, this`rankedLng
      ensures Valid()
      ensures q == old(query) ==> unchanged(this)
      ensures query == q
      ensures q != old(query) ==>
                filtered == Filtered(allBooks, q, selectedCategory, sort, userLat, userLng, distance)
    {
      if q != query {
        query := q;
        Recompute();
      }
    }

    /** `selectedCategory.value = cat`. */
    method SetCategory(cat: string)
      requires Valid()
      modifies this`selectedCategory, this`filtered, this`rankedLat, this`rankedLng
      ensures Valid()
      ensures cat == old(selectedCategory) ==> unchanged(this)
      ensures selectedCategory == cat
      ensures cat != old(selectedCategory) ==>
                filtered == Filtered(allBooks, query, cat, sort, userLat, userLng, distance)
    {
      if cat != selectedCategory {
        selectedCategory := cat;
        Recompute();
      }
    }

    /** `sort.value = s`. */
    method SetSort(s: DiscoverSort)
      requires Valid()
      modifies this`sort, this`filtered, this`rankedLat, this`rankedLng
      ensures Valid()
      ensures s == old(sort) ==> unchanged(this)
      ensures sort == s
      ensures s != old(sort) ==>
                filtered == Filtered(allBooks, query, selectedCategory, s, userLat, userLng, distance)
    {
      if s != sort {
        sort := s;
        Recompute();
      }
    }

    /**
     * The `init` coroutine: `runCatching { repo.getMyAddress() }` sets the
     * location on success and is ignored on failure. Nothing is recomputed.
     */
    method OnMyAddress(r: Result<Repository.AddressTriple, Error>)
      requires Valid()
      modifies this`userLat, this`userLng
      ensures Valid()
      ensures r.Success? ==> userLat == r.value.lat && userLng == r.value.lng
      ensures r.Failure? ==> userLat == old(userLat) && userLng == old(userLng)
    {
      if r.Success? {
        userLat := r.value.lat;
        userLng := r.value.lng;
      }
    }
  }
}

/**
 * The home screen: `HomeState.calculateDistance`, the `filterBooks`
 * pipeline behind `nearbyBooks`, the highlighted strip, the choice of the
 * user's location and name from the profile, and `HomeViewModel`'s state
 * as its handlers change it.
 */
module Home {
  import opened Wrappers
  import opened Books
  import opened Text
  import Seqs

  /** A `LatLng`. */
  datatype LatLng = LatLng(latitude: real, longitude: real)

  /** The fields of a `UserProfile` the home screen reads; unset coordinates are stored as 0.0. */
  datatype UserProfile = UserProfile(displayName: string, photoUrl: string, latitude: real, longitude: real)

  /** Jakarta, the location used whenever the profile gives none. */
  const DefaultLocation: LatLng := LatLng(-6.2088, 106.8456)

  /** The filter chips `filterBooks` recognises. */
  const Terdekat: string := "terdekat"
  const Terbaru: string := "terbaru"

  /** The radius of the "terdekat" filter, in kilometres. */
  const MaxKm: real := 25.0

  // ---------------------------------------------------------------------
  // The profile
  // ---------------------------------------------------------------------

  /**
   * The location chosen from a profile emission: the profile's coordinates
   * when there is a profile and neither coordinate is 0.0, else Jakarta.
   */
  function ProfileLocation(profile: Option<UserProfile>): (loc: LatLng)
    ensures profile.Some? && profile.value.latitude != 0.0 && profile.value.longitude != 0.0 ==>
              loc == LatLng(profile.value.latitude, profile.value.longitude)
    ensures profile.None? || profile.value.latitude == 0.0 || profile.value.longitude == 0.0 ==>
              loc == DefaultLocation
  {
    if profile.Some? && profile.value.latitude != 0.0 && profile.value.longitude != 0.0 then
      LatLng(profile.value.latitude, profile.value.longitude)
    else DefaultLocation
  }

  /** The location is never (0.0, 0.0) in either coordinate: 0.0 always means "unset". */
  lemma ProfileLocationNonZero(profile: Option<UserProfile>)
    ensures ProfileLocation(profile).latitude != 0.0 && ProfileLocation(profile).longitude != 0.0
  {
  }

  /** `userProfile?.displayName?.ifBlank { "User" } ?: "User"`. */
  function UserName(profile: Option<UserProfile>): (name: string)
    ensures profile.Some? && !IsBlank(profile.value.displayName) ==> name == profile.value.displayName
    ensures profile.None? || IsBlank(profile.value.displayName) ==> name == "User"
  {
    if profile.Some? && !IsBlank(profile.value.displayName) then profile.value.displayName else "User"
  }

  /** The name shown is never blank. */
  lemma UserNameNotBlank(profile: Option<UserProfile>)
    ensures !IsBlank(UserName(profile))
  {
    var name := UserName(profile);
    if profile.None? || IsBlank(profile.value.displayName) {
      assert !IsWhitespace(name[0]);
    }
  }

  // ---------------------------------------------------------------------
  // calculateDistance
  // ---------------------------------------------------------------------

  /**
   * Kotlin's `Double.toInt()` on a finite value: truncation toward zero,
   * saturating at the bounds of `Int`.
   */
  function ToInt(x: real): (n: int)
    ensures -0x8000_0000 <= n <= 0x7fff_ffff
    ensures -0x8000_0000 as real < x < 0x7fff_ffff as real ==>
              if x >= 0.0 then (n as real) <= x < (n as real) + 1.0 else (n as real) - 1.0 < x <= (n as real)
    ensures x >= 0x7fff_ffff as real ==> n == 0x7fff_ffff
    ensures x <= -0x8000_0000 as real ==> n == -0x8000_0000
  {
    if x >= 0x7fff_ffff as real then 0x7fff_ffff
    else if x <= -0x8000_0000 as real then -0x8000_0000
    else if x >= 0.0 then x.Floor
    else -((-x).Floor)
  }

  /**
   * The label `calculateDistance` returns. The `String.format("%.1f km")`
   * and `"$n m"` texts are not modelled: the label keeps the number it
   * shows and which form shows it.
   */
  datatype DistanceLabel =
    | Place(text: string)
    | Meters(meters: int)
    | KmOneDecimal(km: real)
    | KmWhole(wholeKm: int)

  /** The distance in kilometres, when the user and the book both have coordinates. */
  function DistanceKm(location: Option<LatLng>, b: Book, distKm: DistanceFn): (d: Option<real>)
    ensures d.None? <==> location.None? || b.lat.None? || b.lng.None?
    ensures d.Some? ==> d.value == distKm(location.value.latitude, location.value.longitude, b.lat.value, b.lng.value)
  {
    if location.None? || b.lat.None? || b.lng.None? then None
    else Some(distKm(location.value.latitude, location.value.longitude, b.lat.value, b.lng.value))
  }

  /** `HomeState.calculateDistance(book)`. */
  function CalculateDistance(location: Option<LatLng>, b: Book, distKm: DistanceFn): (shown: DistanceLabel)
    ensures DistanceKm(location, b, distKm).None? ==>
              shown == Place(Trim(BeforeFirst(b.addressText, ',')))
    ensures DistanceKm(location, b, distKm).Some? ==>
              var d := DistanceKm(location, b, distKm).value;
              && (d < 1.0 ==> shown == Meters(ToInt(d * 1000.0)))
              && (1.0 <= d < 10.0 ==> shown == KmOneDecimal(d))
              && (10.0 <= d ==> shown == KmWhole(ToInt(d)))
  {
    match DistanceKm(location, b, distKm)
    case None => Place(Trim(BeforeFirst(b.addressText, ',')))
    case Some(d) =>
      if d < 1.0 then Meters(ToInt(d * 1000.0))
      else if d < 10.0 then KmOneDecimal(d)
      else KmWhole(ToInt(d))
  }

  /** The fallback text holds no comma and no whitespace at either end. */
  lemma FallbackForm(address: string)
    ensures var text := Trim(BeforeFirst(address, ','));
            && ',' !in text
            && (text == [] || (!IsWhitespace(text[0]) && !IsWhitespace(text[|text| - 1])))
  {
    var part := BeforeFirst(address, ',');
    var text := Trim(part);
    var k := TrimInfix(part);
    TrimEnds(part);
    forall i | 0 <= i < |text| ensures text[i] != ',' {
      assert text[i] == part[k + i];
    }
  }

  /**
   * What each form of the label can show: the fallback text is the
   * trimmed first comma-separated part of the address (so it holds no
   * comma and no surrounding whitespace); a genuine distance below 1 km is
   * shown as 0 to 999 m, one below 10 km with one decimal, and the rest as
   * at least 10 whole kilometres.
   */
  lemma CalculateDistanceForms(location: Option<LatLng>, b: Book, distKm: DistanceFn)
    requires NonNegative(distKm)
    ensures match CalculateDistance(location, b, distKm)
            case Place(text) =>
              && ',' !in text
              && (text == [] || (!IsWhitespace(text[0]) && !IsWhitespace(text[|text| - 1])))
            case Meters(m) => 0 <= m < 1000
            case KmOneDecimal(km) => 1.0 <= km < 10.0
            case KmWhole(n) => n >= 10
  {
    match DistanceKm(location, b, distKm) {
      case None =>
        FallbackForm(b.addressText);
      case Some(d) =>
        var a, c, e, f := location.value.latitude, location.value.longitude, b.lat.value, b.lng.value;
        assert 0.0 <= distKm(a, c, e, f);
    }
  }

  // ---------------------------------------------------------------------
  // filterBooks
  // ---------------------------------------------------------------------

  /** FILTER 2's test: the lower-cased query in the lower-cased title, author, category or description. */
  predicate MentionsQuery(b: Book, lowerQuery: string) {
    || Contains(Lower(b.title), lowerQuery)
    || Contains(Lower(b.author), lowerQuery)
    || Contains(Lower(b.category), lowerQuery)
    || Contains(Lower(b.desc), lowerQuery)
  }

  /**
   * FILTERS 1 and 2: available, and, when the query is not blank, matching
   * `query.lowercase()` (the query is not trimmed).
   */
  predicate PassesSearch(b: Book, query: string) {
    b.isAvailable && (IsBlank(query) || MentionsQuery(b, Lower(query)))
  }

  /** The books after FILTERS 1 and 2, in their original order. */
  function Searched(books: seq<Book>, query: string): seq<Book> {
    if books == [] then []
    else (if PassesSearch(books[0], query) then [books[0]] else []) + Searched(books[1..], query)
  }

  /** FILTER 3's test: the book has coordinates and lies within 25 km. */
  predicate WithinReach(b: Book, location: LatLng, distKm: DistanceFn) {
    b.lat.Some? && b.lng.Some? &&
    distKm(location.latitude, location.longitude, b.lat.value, b.lng.value) <= MaxKm
  }

  /** The books FILTER 3 keeps, in their original order. */
  function Nearby(books: seq<Book>, location: LatLng, distKm: DistanceFn): seq<Book> {
    if books == [] then []
    else (if WithinReach(books[0], location, distKm) then [books[0]] else []) + Nearby(books[1..], location, distKm)
  }

  /** The sort key of FILTER 3: the distance, or `Double.MAX_VALUE` without coordinates. */
  function KmKey(b: Book, location: LatLng, distKm: DistanceFn): real {
    if b.lat.Some? && b.lng.Some? then distKm(location.latitude, location.longitude, b.lat.value, b.lng.value)
    else MaxDouble
  }

  function CloserOrSame(location: LatLng, distKm: DistanceFn): (Book, Book) -> bool {
    (a: Book, b: Book) => KmKey(a, location, distKm) <= KmKey(b, location, distKm)
  }

  /** `filterBooks(books)`, reading the query, the selected filter and the location from the state. */
  function FilterBooks(books: seq<Book>, query: string, filter: string, location: Option<LatLng>,
                       distKm: DistanceFn): seq<Book>
  {
    var searched := Searched(books, query);
    if location.Some? && filter == Terdekat then
      Seqs.Sort(Nearby(searched, location.value, distKm), CloserOrSame(location.value, distKm))
    else if filter == Terbaru then
      NewestFirst(searched)
    else
      searched
  }

  lemma {:induction false} SearchedCount(books: seq<Book>, query: string, b: Book)
    ensures multiset(Searched(books, query))[b] == if PassesSearch(b, query) then multiset(books)[b] else 0
  {
    if books != [] {
      SearchedCount(books[1..], query, b);
      assert books == [books[0]] + books[1..];
    }
  }

  lemma {:induction false} NearbyCount(books: seq<Book>, location: LatLng, distKm: DistanceFn, b: Book)
    ensures multiset(Nearby(books, location, distKm))[b] ==
            if WithinReach(b, location, distKm) then multiset(books)[b] else 0
  {
    if books != [] {
      NearbyCount(books[1..], location, distKm, b);
      assert books == [books[0]] + books[1..];
    }
  }

  /** FILTERS 1 and 2 are the source's two `filter` calls, the second only for a non-blank query. */
  lemma SearchedIsStagedFilters(books: seq<Book>, query: string)
    ensures var available := Seqs.Filter(books, (b: Book) => b.isAvailable);
            Searched(books, query) ==
              if IsBlank(query) then available
              else Seqs.Filter(available, (b: Book) => MentionsQuery(b, Lower(query)))
  {
    var avail := (b: Book) => b.isAvailable;
    var mentions := (b: Book) => MentionsQuery(b, Lower(query));
    var passes := (b: Book) => PassesSearch(b, query);
    if IsBlank(query) {
      SearchedIsFilter(books, query, avail);
    } else {
      Seqs.FilterFilter(books, avail, mentions, passes);
      SearchedIsFilter(books, query, passes);
    }
  }

  lemma {:induction false} SearchedIsFilter(books: seq<Book>, query: string, passes: Book -> bool)
    requires forall b :: passes(b) == PassesSearch(b, query)
    ensures Searched(books, query) == Seqs.Filter(books, passes)
  {
    if books != [] {
      SearchedIsFilter(books[1..], query, passes);
    }
  }

  /**
   * The search stage keeps exactly the available books that match the
   * untrimmed, lower-cased query, each as often as in the input; a blank
   * query keeps every available book.
   */
  lemma SearchStageExact(books: seq<Book>, query: string, b: Book)
    ensures multiset(Searched(books, query))[b] ==
            if b.isAvailable && (IsBlank(query) || MentionsQuery(b, Lower(query))) then multiset(books)[b] else 0
    ensures IsBlank(query) ==> multiset(Searched(books, query))[b] == if b.isAvailable then multiset(books)[b] else 0
  {
    SearchedCount(books, query, b);
  }

  /** `nearbyBooks` holds only available books, never more often than `allBooks` does. */
  lemma FilterBooksSound(books: seq<Book>, query: string, filter: string, location: Option<LatLng>,
                         distKm: DistanceFn, b: Book)
    ensures var r := FilterBooks(books, query, filter, location, distKm);
            && multiset(r)[b] <= multiset(books)[b]
            && (b in r ==> b.isAvailable)
  {
    SearchedCount(books, query, b);
    if location.Some? {
      NearbyCount(Searched(books, query), location.value, distKm, b);
    }
  }

  /**
   * "terdekat" with a location: every result has coordinates and lies
   * within 25 km, the distances never decrease, and the results are
   * exactly the searched books within reach.
   */
  lemma TerdekatOrder(books: seq<Book>, query: string, location: LatLng, distKm: DistanceFn)
    ensures var r := FilterBooks(books, query, Terdekat, Some(location), distKm);
            && (forall i :: 0 <= i < |r| ==> WithinReach(r[i], location, distKm))
            && (forall i, j :: 0 <= i < j < |r| ==> KmKey(r[i], location, distKm) <= KmKey(r[j], location, distKm))
            && multiset(r) == multiset(Nearby(Searched(books, query), location, distKm))
  {
    var near := Nearby(Searched(books, query), location, distKm);
    var le := CloserOrSame(location, distKm);
    var r := Seqs.Sort(near, le);
    Seqs.SortSorted(near, le);
    forall i | 0 <= i < |r| ensures WithinReach(r[i], location, distKm) {
      NearbyCount(Searched(books, query), location, distKm, r[i]);
      assert r[i] in multiset(r);
    }
  }

  /** "terbaru": newest first, a reordering of the searched books. */
  lemma TerbaruOrder(books: seq<Book>, query: string, location: Option<LatLng>, distKm: DistanceFn)
    ensures var r := FilterBooks(books, query, Terbaru, location, distKm);
            && (forall i, j :: 0 <= i < j < |r| ==> r[i].createdAt >= r[j].createdAt)
            && multiset(r) == multiset(Searched(books, query))
  {
  }

  /**
   * "terdekat" without a location, or any other unrecognised filter: the
   * search stage's order is kept as it is.
   */
  lemma OtherFiltersKeepOrder(books: seq<Book>, query: string, filter: string, location: Option<LatLng>,
                              distKm: DistanceFn)
    requires filter != Terbaru
    requires location.None? || filter != Terdekat
    ensures FilterBooks(books, query, filter, location, distKm) == Searched(books, query)
  {
  }

  /** `books.filter { it.isAvailable }.take(5)`. */
  function Highlighted(books: seq<Book>): seq<Book> {
    Seqs.Take(Seqs.Filter(books, (b: Book) => b.isAvailable), 5)
  }

  /** At most five books, all available, the first ones of the list in its order. */
  lemma HighlightedSpec(books: seq<Book>)
    ensures var h := Highlighted(books);
            var available := Seqs.Filter(books, (b: Book) => b.isAvailable);
            && |h| <= 5
            && h == available[..|h|]
            && (|available| >= 5 ==> |h| == 5)
            && (forall i :: 0 <= i < |h| ==> h[i].isAvailable)
  {
  }

  // ---------------------------------------------------------------------
  // The view model
  // ---------------------------------------------------------------------

  /**
   * `HomeViewModel` with the fields of its `HomeState`. Every handler ends
   * by re-running `filterBooks` on the current state, so `nearbyBooks`
   * always matches the current list, query, filter and location, and
   * `highlightedBooks` the current list.
   */
  class HomeViewModel {
    /** `calculateDistanceInKm`. */
    const distKm: DistanceFn
    var userName: string
    var userPhotoUrl: Option<string>
    var searchQuery: string
    var selectedFilter: string
    var radiusKm: real
    var userLocation: Option<LatLng>
    var allBooks: seq<Book>
    var nearbyBooks: seq<Book>
    var highlightedBooks: seq<Book>
    var isLoading: bool
    var errorMessage: Option<string>

    /** `nearbyBooks` is `filterBooks` of the current list and inputs. */
    ghost predicate NearbyInSync()
      reads this`allBooks, this`searchQuery, this`selectedFilter, this`userLocation, this`nearbyBooks
    {
      nearbyBooks == FilterBooks(allBooks, searchQuery, selectedFilter, userLocation, distKm)
    }

    /** `highlightedBooks` is derived from the current list alone. */
    ghost predicate HighlightedInSync()
      reads this`allBooks, this`highlightedBooks
    {
      highlightedBooks == Highlighted(allBooks)
    }

    ghost predicate Valid()
      reads this`allBooks, this`searchQuery, this`selectedFilter, this`userLocation
      reads this`nearbyBooks, this`highlightedBooks
    {
      NearbyInSync() && HighlightedInSync()
    }

    /** The initial `HomeState()`. */
    constructor(distKm: DistanceFn)
      ensures Valid()
      ensures this.distKm == distKm
      ensures userName == "User" && userPhotoUrl == None
      ensures searchQuery == "" && selectedFilter == Terdekat && radiusKm == 5.0 && userLocation == None
      ensures allBooks == [] && nearbyBooks == [] && highlightedBooks == []
      ensures isLoading && errorMessage == None
    {
      this.distKm := distKm;
      userName := "User";
      userPhotoUrl := None;
      searchQuery := "";
      selectedFilter := Terdekat;
      radiusKm := 5.0;
      userLocation := None;
      allBooks := [];
      nearbyBooks := [];
      highlightedBooks := [];
      isLoading := true;
      errorMessage := None;
    }

    /** `applyFilters()`: `nearbyBooks` from the current state; nothing else changes. */
    method ApplyFilters()
      requires HighlightedInSync()
      modifies this`nearbyBooks
      ensures Valid()
      ensures nearbyBooks == FilterBooks(allBooks, searchQuery, selectedFilter, userLocation, distKm)
    {
      nearbyBooks := FilterBooks(allBooks, searchQuery, selectedFilter, userLocation, distKm);
    }

    /**
     * A profile emission from `meFlow()` (a failed flow emits null): name,
     * photo and location from the profile, then `applyFilters()`.
     */
    method OnProfile(profile: Option<UserProfile>)
      requires Valid()
      modifies this`userName, this`userPhotoUrl, this`userLocation, this`nearbyBooks
      ensures Valid()
      ensures userName == UserName(profile)
      ensures userPhotoUrl == (if profile.Some? then Some(profile.value.photoUrl) else None)
      ensures userLocation == Some(ProfileLocation(profile))
      ensures nearbyBooks == FilterBooks(allBooks, searchQuery, selectedFilter, Some(ProfileLocation(profile)), distKm)
    {
      userName := UserName(profile);
      userPhotoUrl := if profile.Some? then Some(profile.value.photoUrl) else None;
      userLocation := Some(ProfileLocation(profile));
      ApplyFilters();
    }

    /** `loadUserProfile`'s outer `catch`: "User" at Jakarta; the photo is kept. */
    method OnProfileFailure()
      requires Valid()
      modifies this`userName, this`userLocation, this`nearbyBooks
      ensures Valid()
      ensures userName == "User" && userLocation == Some(DefaultLocation)
    {
      userName := "User";
      userLocation := Some(DefaultLocation);
      ApplyFilters();
    }

    /** `loadBooks()` starting: loading, no error. */
    method OnLoadStart()
      modifies this`isLoading, this`errorMessage
      ensures isLoading && errorMessage == None
    {
      isLoading := true;
      errorMessage := None;
    }

    /**
     * A list from `allBooksFlow()` (a failed flow emits the empty list):
     * the list, its filtered and highlighted views, not loading, no error.
     */
    method OnBooks(books: seq<Book>)
      modifies this`allBooks, this`nearbyBooks, this`highlightedBooks, this`isLoading, this`errorMessage
      ensures Valid()
      ensures allBooks == books
      ensures nearbyBooks == FilterBooks(books, searchQuery, selectedFilter, userLocation, distKm)
      ensures highlightedBooks == Highlighted(books)
      ensures !isLoading && errorMessage == None
    {
      allBooks := books;
      highlightedBooks := Highlighted(books);
      isLoading := false;
      errorMessage := None;
      ApplyFilters();
    }

    /** `onSearchQueryChange(query)`. */
    method OnSearchQueryChange(query: string)
      requires Valid()
      modifies this`searchQuery, this`nearbyBooks
      ensures Valid()
      ensures searchQuery == query
      ensures nearbyBooks == FilterBooks(allBooks, query, selectedFilter, userLocation, distKm)
    {
      searchQuery := query;
      ApplyFilters();
    }

    /** `onFilterSelect(filter)`. */
    method OnFilterSelect(filter: string)
      requires Valid()
      modifies this`selectedFilter, this`nearbyBooks
      ensures Valid()
      ensures selectedFilter == filter
      ensures nearbyBooks == FilterBooks(allBooks, searchQuery, filter, userLocation, distKm)
    {
      selectedFilter := filter;
      ApplyFilters();
    }

    /** `onRadiusChange(radius)`: stored, but `filterBooks` does not read it, so the list stays. */
    method OnRadiusChange(radius: real)
      requires Valid()
      modifies this`radiusKm, this`nearbyBooks
      ensures Valid()
      ensures radiusKm == radius
      ensures nearbyBooks == old(nearbyBooks)
    {
      var books, q, f, loc := allBooks, searchQuery, selectedFilter, userLocation;
      assert nearbyBooks == FilterBooks(books, q, f, loc, distKm);
      radiusKm := radius;
      ApplyFilters();
    }

    /** `onLocationPermissionGranted()`: the location becomes Jakarta. */
    method OnLocationPermissionGranted()
      requires Valid()
      modifies this`userLocation, this`nearbyBooks
      ensures Valid()
      ensures userLocation == Some(DefaultLocation)
      ensures nearbyBooks == FilterBooks(allBooks, searchQuery, selectedFilter, Some(DefaultLocation), distKm)
    {
      userLocation := Some(DefaultLocation);
      ApplyFilters();
    }
  }
}

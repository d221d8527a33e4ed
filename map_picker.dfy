/**
 * The city search of the map picker: the 2-character gate on the query,
 * the suggestions built from a Nominatim search response, and the
 * first-result rule of the search button's geocoding.
 */
module MapPicker {
  import opened Wrappers
  import opened Text

  /**
   * The `address` object of a result, each entry as `optString` reads it
   * (the empty string when the key is missing).
   */
  datatype Address = Address(city: string, county: string, state: string, country: string)

  /** One element of the response array. `lat`/`lon` are `None` when `getString(..).toDouble()` throws. */
  datatype ResultElement = ResultElement(
    address: Option<Address>,
    displayName: string,
    lat: Option<real>,
    lon: Option<real>)

  /** What the HTTP call yields: a non-success status (or any failure before parsing), or the parsed array. */
  datatype NominatimResponse = Unsuccessful | Results(elements: seq<ResultElement>)

  datatype CitySuggestion = CitySuggestion(primary: string, secondary: string, lat: real, lon: real)

  datatype GeoPoint = GeoPoint(latitude: real, longitude: real)

  /** A missing `address` reads like one whose entries are all missing. */
  function Fields(o: ResultElement): Address {
    o.address.GetOr(Address("", "", "", ""))
  }

  /**
   * `cityLike`: the city entry. `optString` never yields null, so the
   * `town` and `village` alternatives after it are never consulted.
   */
  function CityLike(o: ResultElement): string {
    Fields(o).city
  }

  /** `split(",").firstOrNull()?.trim()`: the trimmed text before the first comma. */
  function FirstSegment(s: string): string {
    Trim(BeforeFirst(s, ','))
  }

  /** The first line of a suggestion. */
  function Primary(o: ResultElement): string {
    if !IsBlank(CityLike(o)) then CityLike(o) else FirstSegment(o.displayName)
  }

  /** `listOfNotNull(county, state, country)` keeping the non-blank ones. */
  function SecondaryParts(a: Address): (parts: seq<string>)
    ensures forall i :: 0 <= i < |parts| ==> !IsBlank(parts[i])
  {
    (if !IsBlank(a.county) then [a.county] else [])
      + (if !IsBlank(a.state) then [a.state] else [])
      + (if !IsBlank(a.country) then [a.country] else [])
  }

  /** The second line of a suggestion: the non-blank parts joined by " · ". */
  function Secondary(o: ResultElement): string {
    Join(SecondaryParts(Fields(o)), " · ")
  }

  /** The element carries both coordinates, so neither `toDouble` throws. */
  predicate Located(o: ResultElement) {
    o.lat.Some? && o.lon.Some?
  }

  /** Every element is located. */
  predicate AllLocated(elements: seq<ResultElement>) {
    forall i :: 0 <= i < |elements| ==> Located(elements[i])
  }

  function Suggestion(o: ResultElement): (s: CitySuggestion)
    requires Located(o)
  {
    CitySuggestion(Primary(o), Secondary(o), o.lat.value, o.lon.value)
  }

  /** One suggestion per element, in response order. */
  function Suggestions(elements: seq<ResultElement>): (r: seq<CitySuggestion>)
    requires AllLocated(elements)
    ensures |r| == |elements|
    ensures forall i :: 0 <= i < |r| ==> r[i] == Suggestion(elements[i])
  {
    seq(|elements|, i requires 0 <= i < |elements| => Suggestion(elements[i]))
  }

  /**
   * The `buildList` loop inside `runCatching`, for a conversion `convert`
   * that throws on the elements failing `ok`: one result per element in
   * turn, and the first element that fails abandons the whole list.
   */
  method TryMap<A, B>(xs: seq<A>, ok: A -> bool, convert: A --> B) returns (r: Option<seq<B>>)
    requires forall x :: ok(x) ==> convert.requires(x)
    ensures r.Some? <==> forall i :: 0 <= i < |xs| ==> ok(xs[i])
    ensures r.Some? ==> |r.value| == |xs| && forall i :: 0 <= i < |xs| ==> r.value[i] == convert(xs[i])
  {
    var built: seq<B> := [];
    var i := 0;
    while i < |xs|
      invariant 0 <= i <= |xs|
      invariant forall j :: 0 <= j < i ==> ok(xs[j])
      invariant |built| == i
      invariant forall j :: 0 <= j < i ==> built[j] == convert(xs[j])
    {
      if !ok(xs[i]) {
        return None;
      }
      built := built + [convert(xs[i])];
      i := i + 1;
    }
    return Some(built);
  }

  /** The loop over the response: the suggestions exactly when every element is located. */
  method BuildSuggestions(elements: seq<ResultElement>) returns (r: Option<seq<CitySuggestion>>)
    ensures AllLocated(elements) ==> r == Some(Suggestions(elements))
    ensures !AllLocated(elements) ==> r == None
  {
    r := TryMap(elements, Located, Suggestion);
    if r.Some? {
      var all := Suggestions(elements);
      assert forall j :: 0 <= j < |all| ==> r.value[j] == all[j];
      assert r.value == all;
    }
  }

  /** `fetchCitySuggestions`: any failure, of the call or of one element, yields no suggestions at all. */
  method FetchCitySuggestions(response: NominatimResponse) returns (r: seq<CitySuggestion>)
    ensures response.Results? && AllLocated(response.elements) ==> r == Suggestions(response.elements)
    ensures response.Unsuccessful? || !AllLocated(response.elements) ==> r == []
  {
    if response.Unsuccessful? {
      return [];
    }
    var built := BuildSuggestions(response.elements);
    r := built.GetOr([]);
  }

  /** A slice of a prefix of `s` is a slice of `s`, and misses what the prefix misses. */
  lemma SliceOfPrefix(s: string, prefix: string, piece: string, k: nat, c: char)
    requires |prefix| <= |s| && prefix == s[..|prefix|] && c !in prefix
    requires k + |piece| <= |prefix| && piece == prefix[k..k + |piece|]
    ensures c !in piece && piece == s[k..k + |piece|]
  {
  }

  /** The first segment holds no comma. */
  lemma FirstSegmentNoComma(s: string)
    ensures ',' !in FirstSegment(s)
  {
    var first := BeforeFirst(s, ',');
    var k := TrimInfix(first);
    SliceOfPrefix(s, first, Trim(first), k, ',');
  }

  /** The first segment is a piece of `s`. */
  lemma FirstSegmentPiece(s: string) returns (k: nat)
    ensures k + |FirstSegment(s)| <= |s| && FirstSegment(s) == s[k..k + |FirstSegment(s)|]
  {
    var first := BeforeFirst(s, ',');
    k := TrimInfix(first);
    SliceOfPrefix(s, first, Trim(first), k, ',');
  }

  /**
   * The primary line is the city when it is not blank, and otherwise the
   * display name's first segment; it is blank only when both are.
   */
  lemma PrimarySpec(o: ResultElement)
    ensures !IsBlank(CityLike(o)) ==> Primary(o) == CityLike(o)
    ensures IsBlank(CityLike(o)) ==> Primary(o) == FirstSegment(o.displayName)
    ensures IsBlank(Primary(o)) <==> IsBlank(CityLike(o)) && IsBlank(BeforeFirst(o.displayName, ','))
  {
    var p := Primary(o);
    if p != [] && IsBlank(CityLike(o)) {
      TrimEnds(BeforeFirst(o.displayName, ','));
      assert !IsWhitespace(p[0]);
    }
  }

  /**
   * The secondary line is empty exactly when county, state and country are
   * all blank.
   */
  lemma SecondaryEmpty(o: ResultElement)
    ensures Secondary(o) == [] <==>
              IsBlank(Fields(o).county) && IsBlank(Fields(o).state) && IsBlank(Fields(o).country)
  {
    var parts := SecondaryParts(Fields(o));
    assert forall i :: 0 <= i < |parts| ==> parts[i] != [];
    JoinEmpty(parts, " · ");
  }

  /** `geocodeCity`: the first element's point, or null for a failure or an empty array. */
  function GeocodeCity(response: NominatimResponse): (r: Option<GeoPoint>)
    ensures r.Some? <==>
              response.Results? && response.elements != []
              && response.elements[0].lat.Some? && response.elements[0].lon.Some?
    ensures r.Some? ==>
              r.value.latitude == response.elements[0].lat.value
              && r.value.longitude == response.elements[0].lon.value
  {
    if response.Unsuccessful? || response.elements == [] then None
    else
      var o := response.elements[0];
      if Located(o) then Some(GeoPoint(o.lat.value, o.lon.value)) else None
  }

  /** The search button: it geocodes the trimmed query, and does nothing when that is empty. */
  function SearchQuery(cityQuery: string): (r: Option<string>)
    ensures r.None? <==> IsBlank(cityQuery)
    ensures r.Some? ==> r.value == Trim(cityQuery) && r.value != []
  {
    var q := Trim(cityQuery);
    if q != [] then Some(q) else None
  }

  /** Kotlin's `String.length`: UTF-16 code units, two for a character above U+FFFF. */
  function Utf16Length(s: string): (n: nat)
    ensures |s| <= n <= 2 * |s|
  {
    if s == [] then 0 else (if s[0] as int > 0xFFFF then 2 else 1) + Utf16Length(s[1..])
  }

  /**
   * The gate of the query effect: a trimmed query is too short exactly when
   * it is empty or one character that fits one UTF-16 unit; a single
   * character above U+FFFF already passes.
   */
  lemma {:induction false} QueryGate(cityQuery: string)
    ensures var q := Trim(cityQuery);
            Utf16Length(q) < 2 <==> q == [] || (|q| == 1 && q[0] as int <= 0xFFFF)
  {
    var q := Trim(cityQuery);
    if |q| == 1 {
      assert Utf16Length(q) == (if q[0] as int > 0xFFFF then 2 else 1) + Utf16Length(q[1..]);
      assert q[1..] == [];
    }
  }

  /** The suggestion state of the screen. */
  class CitySearch {
    var suggestions: seq<CitySuggestion>
    var loadingSuggest: bool
    /** The trimmed queries sent to Nominatim so far. */
    var fetched: seq<string>

    constructor()
      ensures suggestions == [] && !loadingSuggest && fetched == []
    {
      suggestions, loadingSuggest, fetched := [], false, [];
    }

    /**
     * The effect run for a new `cityQuery`, with `search` standing for the
     * Nominatim call. A trimmed query shorter than 2 UTF-16 units clears the
     * suggestions and fetches nothing; a longer one is fetched and its
     * suggestions replace the old ones.
     */
    method OnQueryChanged(cityQuery: string, search: string -> NominatimResponse)
      modifies this
      ensures Utf16Length(Trim(cityQuery)) < 2 ==> suggestions == [] && fetched == old(fetched) && loadingSuggest == old(loadingSuggest)
      ensures Utf16Length(Trim(cityQuery)) >= 2 ==>
                fetched == old(fetched) + [Trim(cityQuery)] && !loadingSuggest
                && var resp := search(Trim(cityQuery));
                   suggestions == (if resp.Results? && AllLocated(resp.elements) then Suggestions(resp.elements) else [])
    {
      var q := Trim(cityQuery);
      if Utf16Length(q) < 2 {
        suggestions := [];
        return;
      }
      loadingSuggest := true;
      fetched := fetched + [q];
      suggestions := FetchCitySuggestions(search(q));
      loadingSuggest := false;
    }
  }
}

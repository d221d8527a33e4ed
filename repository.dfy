/**
 * `BooksRepositoryImpl`: the snapshot listener behind `myBooksFlow` and
 * `allBooksFlow` (decode, drop what does not decode, stamp ids, newest
 * first, keep the last good list across errors), the `addBook` write path
 * over an abstract uploader and store, `getMyAddress`, and the per-event
 * rule of `getBook`.
 */
module Repository {
  import opened Wrappers
  import opened Books

  // ---------------------------------------------------------------------
  // Snapshot listener
  // ---------------------------------------------------------------------

  /** One document of a query snapshot: its id and what `toObject(Book)` made of it (`None`: nothing). */
  datatype Document = Document(id: string, decoded: Option<Book>)

  /** What a snapshot-listener callback receives: an exception, or a snapshot that may be null. */
  datatype SnapshotEvent = Failed | Delivered(snapshot: Option<seq<Document>>)

  /** The book a document decodes to, with `id` set to the document id. */
  function Stamped(d: Document): Book
    requires d.decoded.Some?
  {
    d.decoded.value.(id := Some(d.id))
  }

  /** `b` is what some document of `docs` decodes to. */
  ghost predicate DecodedFrom(b: Book, docs: seq<Document>) {
    exists d :: d in docs && d.decoded.Some? && b == Stamped(d)
  }

  /** `documents.mapNotNull { doc -> doc.toObject(Book)?.apply { id = doc.id } }` */
  function DecodeAll(docs: seq<Document>): (r: seq<Book>)
    ensures |r| <= |docs|
    ensures forall i :: 0 <= i < |r| ==> DecodedFrom(r[i], docs)
  {
    if docs == [] then []
    else
      var head := if docs[0].decoded.Some? then [Stamped(docs[0])] else [];
      var rest := DecodeAll(docs[1..]);
      var r := head + rest;
      assert forall i :: 0 <= i < |r| ==> DecodedFrom(r[i], docs) by {
        forall i | 0 <= i < |r|
          ensures DecodedFrom(r[i], docs)
        {
          if i < |head| {
            assert docs[0] in docs && r[i] == Stamped(docs[0]);
          } else {
            assert r[i] == rest[i - |head|];
            DecodedFromTail(r[i], docs);
          }
        }
      }
      r
  }

  lemma DecodedFromTail(b: Book, docs: seq<Document>)
    requires docs != [] && DecodedFrom(b, docs[1..])
    ensures DecodedFrom(b, docs)
  {
    var d :| d in docs[1..] && d.decoded.Some? && b == Stamped(d);
    assert d in docs;
  }

  /** No document that decodes is lost, and nothing is dropped when every document decodes. */
  lemma {:induction false} DecodeAllComplete(docs: seq<Document>)
    ensures forall j :: 0 <= j < |docs| && docs[j].decoded.Some? ==> Stamped(docs[j]) in DecodeAll(docs)
    ensures (forall j :: 0 <= j < |docs| ==> docs[j].decoded.Some?) ==> |DecodeAll(docs)| == |docs|
  {
    if docs != [] {
      DecodeAllComplete(docs[1..]);
      forall j | 0 <= j < |docs| && docs[j].decoded.Some? ensures Stamped(docs[j]) in DecodeAll(docs) {
        if j > 0 { assert docs[j] == docs[1..][j - 1]; }
      }
    }
  }

  /** The list one data callback computes: decoded, stamped, newest first (a null snapshot gives none). */
  function SnapshotBooks(snapshot: Option<seq<Document>>): (r: seq<Book>)
    ensures |r| <= |snapshot.GetOr([])|
    ensures forall i, j :: 0 <= i < j < |r| ==> r[i].createdAt >= r[j].createdAt
    ensures forall i :: 0 <= i < |r| ==> r[i].id.Some?
  {
    var decoded := DecodeAll(snapshot.GetOr([]));
    var r := NewestFirst(decoded);
    assert forall i :: 0 <= i < |r| ==> r[i] in multiset(decoded);
    r
  }

  /**
   * One callback: an error re-sends `last`; a snapshot replaces it. Either
   * way, what is sent is what `last` holds afterwards.
   */
  function Project(last: seq<Book>, ev: SnapshotEvent): seq<Book> {
    match ev
    case Failed => last
    case Delivered(snapshot) => SnapshotBooks(snapshot)
  }

  /** `last` after a run of callbacks, starting from `emptyList()`. */
  function LastGood(events: seq<SnapshotEvent>): seq<Book> {
    if events == [] then []
    else Project(LastGood(events[..|events| - 1]), events[|events| - 1])
  }

  /** Everything a run of callbacks sends, one list per callback. */
  function Emissions(events: seq<SnapshotEvent>): (out: seq<seq<Book>>)
    ensures |out| == |events|
  {
    if events == [] then []
    else Emissions(events[..|events| - 1]) + [LastGood(events)]
  }

  /** The `k`-th list sent is `last` as it stands after the `k`-th callback. */
  lemma {:induction false} EmissionIsLastGood(events: seq<SnapshotEvent>, k: nat)
    requires k < |events|
    ensures Emissions(events)[k] == LastGood(events[..k + 1])
  {
    if k < |events| - 1 {
      var init := events[..|events| - 1];
      EmissionIsLastGood(init, k);
      assert init[..k + 1] == events[..k + 1];
    } else {
      assert events[..k + 1] == events;
    }
  }

  /**
   * An error re-sends the list sent just before it (the empty list when it
   * is the first callback): a transient failure never blanks the view.
   */
  lemma ErrorResendsPrevious(events: seq<SnapshotEvent>, k: nat)
    requires k < |events| && events[k].Failed?
    ensures Emissions(events)[k] == if k == 0 then [] else Emissions(events)[k - 1]
  {
    EmissionIsLastGood(events, k);
    assert events[..k + 1][..k] == events[..k];
    if k > 0 {
      EmissionIsLastGood(events, k - 1);
      assert events[..k - 1 + 1] == events[..k];
    }
  }

  /** Before any snapshot `last` is empty, however many errors came. */
  lemma {:induction false} LastGoodWithoutSnapshot(events: seq<SnapshotEvent>)
    requires forall i :: 0 <= i < |events| ==> events[i].Failed?
    ensures LastGood(events) == []
  {
    if events != [] {
      var init := events[..|events| - 1];
      assert forall i :: 0 <= i < |init| ==> init[i] == events[i];
      LastGoodWithoutSnapshot(init);
    }
  }

  /** After a snapshot followed only by errors, `last` is that snapshot's list. */
  lemma {:induction false} LastGoodIsLatestSnapshot(events: seq<SnapshotEvent>, k: nat)
    requires k < |events| && events[k].Delivered?
    requires forall i :: k < i < |events| ==> events[i].Failed?
    ensures LastGood(events) == SnapshotBooks(events[k].snapshot)
  {
    if k < |events| - 1 {
      var init := events[..|events| - 1];
      assert forall i :: 0 <= i < |init| ==> init[i] == events[i];
      LastGoodIsLatestSnapshot(init, k);
    }
  }

  /**
   * The listener state of one `callbackFlow`: the captured `var last`, the
   * lists handed to `trySend` so far, and whether the flow is closed.
   */
  class SnapshotListener {
    /** The owner the query is scoped to (`whereEqualTo("ownerId", uid)`); `None` for all books. */
    const scope: Option<string>
    /** The flow was opened with no signed-in user: it sent one empty list and closed. */
    const signedOut: bool
    var last: seq<Book>
    var sent: seq<seq<Book>>
    var closed: bool
    /** The callbacks received while open. */
    ghost var events: seq<SnapshotEvent>

    ghost predicate Valid()
      reads this
    {
      && last == LastGood(events)
      && if signedOut then closed && events == [] && sent == [[]]
         else sent == Emissions(events)
    }

    /** `allBooksFlow()`: a listener on the whole collection, nothing sent yet. */
    constructor AllBooks()
      ensures Valid()
      ensures scope == None && !signedOut && !closed
      ensures last == [] && sent == [] && events == []
    {
      scope := None;
      signedOut := false;
      last := [];
      sent := [];
      closed := false;
      events := [];
    }

    /**
     * `myBooksFlow()` with `uid` the current user: without one it sends a
     * single empty list and closes; with one it listens to that owner's books.
     */
    constructor MyBooks(uid: Option<string>)
      ensures Valid()
      ensures scope == uid && signedOut == uid.None? && closed == uid.None?
      ensures uid.None? ==> sent == [[]]
      ensures uid.Some? ==> sent == []
      ensures last == [] && events == []
    {
      scope := uid;
      signedOut := uid.None?;
      last := [];
      sent := if uid.None? then [[]] else [];
      closed := uid.None?;
      events := [];
    }

    /**
     * The `addSnapshotListener` callback. Once the flow is closed no
     * listener is registered and nothing happens.
     */
    method OnEvent(ev: SnapshotEvent) returns (emitted: Option<seq<Book>>)
      requires Valid()
      modifies this
      ensures Valid()
      ensures old(closed) ==> emitted == None && unchanged(this)
      ensures !old(closed) ==>
                && emitted == Some(Project(old(last), ev))
                && last == emitted.value
                && sent == old(sent) + [last]
                && events == old(events) + [ev]
                && !closed
    {
      if closed {
        return None;
      }
      match ev {
        case Failed =>
          sent := sent + [last];
        case Delivered(snapshot) =>
          var items := SnapshotBooks(snapshot);
          last := items;
          sent := sent + [items];
      }
      events := events + [ev];
      assert events[..|events| - 1] == old(events);
      emitted := Some(last);
    }

    /** `awaitClose { reg.remove() }`: the collector went away; a second close does nothing. */
    method Cancel()
      requires Valid()
      modifies this
      ensures Valid()
      ensures closed
      ensures last == old(last) && sent == old(sent) && events == old(events)
    {
      closed := true;
    }
  }

  // ---------------------------------------------------------------------
  // addBook
  // ---------------------------------------------------------------------

  /** The exception `error("User belum login")` throws. */
  const NotSignedIn: Error := Error(Some("User belum login"))

  /** `images.map { uploader.uploadOne(it) }`: uploads in order, stopping at the first that throws. */
  function UploadAll(images: seq<Uri>, upload: Uri -> Result<string, Error>): (r: Result<seq<string>, Error>)
    ensures r.Success? <==> forall i :: 0 <= i < |images| ==> upload(images[i]).Success?
    ensures r.Success? ==>
              && |r.value| == |images|
              && forall i :: 0 <= i < |images| ==> upload(images[i]) == Success(r.value[i])
    ensures r.Failure? ==>
              exists k :: && 0 <= k < |images|
                          && upload(images[k]) == Failure(r.error)
                          && forall i :: 0 <= i < k ==> upload(images[i]).Success?
  {
    if images == [] then Success([])
    else
      match upload(images[0])
      case Failure(e) => Failure(e)
      case Success(url) =>
        var rest := UploadAll(images[1..], upload);
        assert forall i :: 1 <= i < |images| ==> images[i] == images[1..][i - 1];
        match rest
        case Failure(e) =>
          var k :| 0 <= k < |images[1..]| && upload(images[1..][k]) == Failure(e) &&
                   forall i :: 0 <= i < k ==> upload(images[1..][i]).Success?;
          assert upload(images[k + 1]) == Failure(e);
          Failure(e)
        case Success(urls) => Success([url] + urls)
  }

  /**
   * The document `addBook` writes. `Book.kt` declares no `category` and no
   * `isAvailable`, and the call passes neither: the model writes them as
   * `""` and `true`, and leaves `id` unset until the document is read back.
   */
  function NewBook(title: string, author: string, desc: string, urls: seq<string>, ownerId: string,
                   addressText: string, lat: Option<real>, lng: Option<real>, now: int): Book
  {
    Book(None, title, author, desc, "", urls, ownerId, addressText, true, lat, lng, now)
  }

  /** What `addBook` returns, and the entity it handed to the store's `add` (`None`: `add` was never called). */
  datatype AddOutcome = AddOutcome(result: Result<Book, Error>, written: Option<Book>)

  /**
   * `addBook`, with the uploader and the store's `add` as parameters and
   * the clock read as `now`. All or nothing: without a user, or when an
   * upload throws, the store is never called and the exception is the
   * result; otherwise the entity is handed to the store, and the call
   * succeeds exactly when the store does.
   */
  function AddBook(uid: Option<string>, title: string, author: string, desc: string, images: seq<Uri>,
                   addressText: string, lat: Option<real>, lng: Option<real>, now: int,
                   upload: Uri -> Result<string, Error>, store: Book -> Option<Error>): (out: AddOutcome)
    ensures uid.None? ==> out == AddOutcome(Failure(NotSignedIn), None)
    ensures uid.Some? && UploadAll(images, upload).Failure? ==>
              out == AddOutcome(Failure(UploadAll(images, upload).error), None)
    ensures (exists i :: 0 <= i < |images| && upload(images[i]).Failure?) ==>
              out.result.Failure? && out.written.None?
    ensures out.written.Some? <==> uid.Some? && UploadAll(images, upload).Success?
    ensures out.written.Some? ==>
              && out.written.value ==
                 NewBook(title, author, desc, UploadAll(images, upload).value, uid.value, addressText, lat, lng, now)
              && (out.result.Success? <==> store(out.written.value).None?)
              && (out.result.Failure? ==> out.result.error == store(out.written.value).value)
    ensures out.result.Success? ==>
              && out.written == Some(out.result.value)
              && |out.result.value.imageUrls| == |images|
              && forall i :: 0 <= i < |images| ==> upload(images[i]) == Success(out.result.value.imageUrls[i])
  {
    match uid
    case None => AddOutcome(Failure(NotSignedIn), None)
    case Some(owner) =>
      match UploadAll(images, upload)
      case Failure(e) => AddOutcome(Failure(e), None)
      case Success(urls) =>
        var entity := NewBook(title, author, desc, urls, owner, addressText, lat, lng, now);
        match store(entity)
        case Some(e) => AddOutcome(Failure(e), Some(entity))
        case None => AddOutcome(Success(entity), Some(entity))
  }

  // ---------------------------------------------------------------------
  // getMyAddress, getBook
  // ---------------------------------------------------------------------

  /** The `users/{uid}` fields `getMyAddress` reads (`None`: the field is missing). */
  datatype UserDoc = UserDoc(addressText: Option<string>, lat: Option<real>, lng: Option<real>)

  /** Kotlin's `Triple<String, Double?, Double?>` of an address and its coordinates. */
  datatype AddressTriple = AddressTriple(addressText: string, lat: Option<real>, lng: Option<real>)

  /**
   * `getMyAddress`, with the read of `users/{uid}` as a parameter: no user
   * gives `("", null, null)` without a read; a missing address becomes `""`;
   * a failed read throws.
   */
  function GetMyAddress(uid: Option<string>, fetch: string -> Result<UserDoc, Error>): (r: Result<AddressTriple, Error>)
    ensures uid.None? ==> r == Success(AddressTriple("", None, None))
    ensures uid.Some? ==> (r.Failure? <==> fetch(uid.value).Failure?)
    ensures uid.Some? && r.Failure? ==> r.error == fetch(uid.value).error
    ensures uid.Some? && r.Success? ==>
              var doc := fetch(uid.value).value;
              && (doc.addressText.Some? ==> r.value.addressText == doc.addressText.value)
              && (doc.addressText.None? ==> r.value.addressText == "")
              && r.value.lat == doc.lat && r.value.lng == doc.lng
  {
    match uid
    case None => Success(AddressTriple("", None, None))
    case Some(u) =>
      match fetch(u)
      case Failure(e) => Failure(e)
      case Success(doc) => Success(AddressTriple(doc.addressText.GetOr(""), doc.lat, doc.lng))
  }

  /** A document snapshot: its id, whether the document exists, and what `toObject(Book)` made of it. */
  datatype DocSnapshot = DocSnapshot(id: string, present: bool, decoded: Option<Book>)

  /**
   * What one `getBook` callback sends: null on an error, a null snapshot or
   * a missing document (or one that does not decode), else the book with
   * its `id` set.
   */
  function GetBookEmission(failed: bool, snapshot: Option<DocSnapshot>): (r: Option<Book>)
    ensures r.Some? <==> !failed && snapshot.Some? && snapshot.value.present && snapshot.value.decoded.Some?
    ensures r.Some? ==> r.value == snapshot.value.decoded.value.(id := Some(snapshot.value.id))
  {
    if failed || snapshot.None? || !snapshot.value.present then None
    else
      match snapshot.value.decoded
      case None => None
      case Some(b) => Some(b.(id := Some(snapshot.value.id)))
  }
}

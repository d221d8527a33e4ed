/**
 * `EditBookViewModel`: the edit form filled from the stored book, the
 * map-picker address update, and the validated, trimmed save.
 */
module EditBookForm {
  import opened Wrappers
  import opened Books
  import opened Text

  /**
   * The argument list of the `repo.updateBook(...)` call, in the shape the
   * view model calls it (with the category).
   */
  datatype UpdateBookRequest = UpdateBookRequest(
    bookId: string,
    title: string,
    author: string,
    desc: string,
    category: string,
    addressText: string,
    lat: Option<real>,
    lng: Option<real>)

  /** The message shown when the title or the author is blank. */
  const RequiredFields: string := "Judul dan Penulis tidak boleh kosong."

  /** The form state of `EditBookViewModel`. */
  class EditBookViewModel {
    const bookId: string
    var book: Option<Book>
    var title: string
    var author: string
    var desc: string
    var selectedCategory: string
    var addressText: string
    var lat: Option<real>
    var lng: Option<real>
    var busy: bool
    var message: Option<string>

    /** The form before the book has been fetched: no book, empty fields. */
    constructor(id: string)
      ensures bookId == id && book == None
      ensures title == "" && author == "" && desc == "" && selectedCategory == "" && addressText == ""
      ensures lat == None && lng == None && !busy && message == None
    {
      bookId := id;
      book := None;
      title, author, desc, selectedCategory, addressText := "", "", "", "", "";
      lat, lng := None, None;
      busy, message := false, None;
    }

    /**
     * The `init` coroutine receiving the first value of `getBook(bookId)`:
     * a book fills the form, no book leaves it as it was.
     */
    method OnBookLoaded(loaded: Option<Book>)
      modifies this`book, this`title, this`author, this`desc, this`selectedCategory
      modifies this`addressText, this`lat, this`lng
      ensures book == loaded
      ensures loaded.Some? ==>
                title == loaded.value.title && author == loaded.value.author
                && desc == loaded.value.desc && selectedCategory == loaded.value.category
                && addressText == loaded.value.addressText && lat == loaded.value.lat && lng == loaded.value.lng
      ensures loaded.None? ==>
                title == old(title) && author == old(author) && desc == old(desc)
                && selectedCategory == old(selectedCategory) && addressText == old(addressText)
                && lat == old(lat) && lng == old(lng)
    {
      book := loaded;
      if loaded.Some? {
        var b := loaded.value;
        title, author, desc, selectedCategory := b.title, b.author, b.desc, b.category;
        addressText, lat, lng := b.addressText, b.lat, b.lng;
      }
    }

    /** `onAddressUpdate(newAddress, newLat, newLng)`: the place chosen on the map. */
    method OnAddressUpdate(newAddress: string, newLat: Option<real>, newLng: Option<real>)
      modifies this`addressText, this`lat, this`lng
      ensures addressText == newAddress && lat == newLat && lng == newLng
    {
      addressText, lat, lng := newAddress, newLat, newLng;
    }

    /** Whether `saveBook` gets past its check: neither the title nor the author is blank. */
    predicate CanSave()
      reads this`title, this`author
    {
      !IsBlank(title) && !IsBlank(author)
    }

    /**
     * The update a save sends: every text field trimmed, the coordinates as
     * they are. A form that passes the check sends a non-empty title and
     * author, and trimming the request again changes nothing.
     */
    function Request(): (req: UpdateBookRequest)
      reads this`title, this`author, this`desc, this`selectedCategory, this`addressText, this`lat, this`lng
      ensures req.bookId == bookId && req.lat == lat && req.lng == lng
      ensures req.title == Trim(title) && req.author == Trim(author) && req.desc == Trim(desc)
      ensures req.category == Trim(selectedCategory) && req.addressText == Trim(addressText)
      ensures CanSave() ==> req.title != [] && req.author != []
    {
      UpdateBookRequest(bookId, Trim(title), Trim(author), Trim(desc), Trim(selectedCategory), Trim(addressText), lat, lng)
    }

    /**
     * `saveBook(onSuccess)`, with the repository call as `repo`. A blank
     * title or author only sets the message: no update, no `onSuccess`.
     * Otherwise `Request()` is sent while busy; when the update succeeds,
     * `busy` is cleared and `onSuccess` runs once, and when it throws, the
     * exception leaves the view model busy and `onSuccess` does not run.
     */
    method SaveBook(repo: UpdateBookRequest -> Result<(), Error>) returns (sent: Option<UpdateBookRequest>, successCalls: nat)
      modifies this`busy, this`message
      ensures !old(CanSave()) ==>
                sent == None && successCalls == 0 && message == Some(RequiredFields) && busy == old(busy)
      ensures old(CanSave()) ==> sent == Some(old(Request())) && message == old(message)
      ensures old(CanSave()) && repo(sent.value).Success? ==> !busy && successCalls == 1
      ensures old(CanSave()) && repo(sent.value).Failure? ==> busy && successCalls == 0
    {
      var req := Request();
      if !CanSave() {
        message := Some(RequiredFields);
        return None, 0;
      }
      busy := true;
      sent := Some(req);
      var r := repo(req);
      if r.Failure? {
        return sent, 0;
      }
      busy := false;
      successCalls := 1;
    }
  }

  /**
   * What a save sends is already trimmed: trimming its text fields again
   * gives the same request, and for a form that passes the check the title
   * and author are non-empty and start and end with a non-blank character.
   */
  lemma RequestIsTrimmed(vm: EditBookViewModel)
    ensures var req := vm.Request();
      Trim(req.title) == req.title && Trim(req.author) == req.author && Trim(req.desc) == req.desc
      && Trim(req.category) == req.category && Trim(req.addressText) == req.addressText
    ensures vm.CanSave() ==> var req := vm.Request();
      !IsWhitespace(req.title[0]) && !IsWhitespace(req.author[0])
  {
    TrimIdempotent(vm.title);
    TrimIdempotent(vm.author);
    TrimIdempotent(vm.desc);
    TrimIdempotent(vm.selectedCategory);
    TrimIdempotent(vm.addressText);
  }
}

/**
 * `AddBookViewModel`: the add-book form, its profile-address switch, the
 * price parse and the handling of the repository's result.
 */
module AddBookForm {
  import opened Wrappers
  import opened Books
  import opened Text
  import Repository

  // ---------------------------------------------------------------------
  // String.toLongOrNull
  // ---------------------------------------------------------------------

  const MinLong: int := -0x8000_0000_0000_0000
  const MaxLong: int := 0x7fff_ffff_ffff_ffff

  predicate IsDigit(c: char) {
    '0' <= c <= '9'
  }

  predicate AllDigits(s: string) {
    forall i :: 0 <= i < |s| ==> IsDigit(s[i])
  }

  /** The value of a string of decimal digits, most significant first. */
  function DigitsValue(s: string): nat
    requires AllDigits(s)
  {
    if s == [] then 0 else DigitsValue(s[..|s| - 1]) * 10 + (s[|s| - 1] as int - '0' as int)
  }

  /**
   * Kotlin's `String.toLongOrNull()` (radix 10): an optional `+` or `-`,
   * then at least one decimal digit and nothing else, and a value that
   * fits a `Long`; anything else is null.
   */
  function ParseLong(s: string): (r: Option<int>)
    ensures r.Some? ==> MinLong <= r.value <= MaxLong
    ensures s == [] || s == "+" || s == "-" ==> r.None?
    ensures r.Some? ==> forall i :: 1 <= i < |s| ==> IsDigit(s[i])
  {
    if s == [] then None
    else
      var signed := s[0] == '-' || s[0] == '+';
      var digits := if signed then s[1..] else s;
      if digits == [] || !AllDigits(digits) then None
      else
        var n: int := DigitsValue(digits);
        var v := if s[0] == '-' then -n else n;
        if MinLong <= v <= MaxLong then Some(v) else None
  }

  /** The decimal digits of `n`, without leading zeros. */
  function Digits(n: nat): (s: string)
    ensures s != [] && AllDigits(s)
  {
    if n < 10 then ['0' + n as char] else Digits(n / 10) + ['0' + (n % 10) as char]
  }

  /** `n.toString()`. */
  function Show(n: int): string {
    if n < 0 then "-" + Digits(-n) else Digits(n)
  }

  lemma {:induction false} DigitsValueOfDigits(n: nat)
    ensures DigitsValue(Digits(n)) == n
  {
    if n >= 10 {
      DigitsValueOfDigits(n / 10);
      var s := Digits(n);
      assert s[..|s| - 1] == Digits(n / 10);
    }
  }

  /** What `ParseLong` makes of a printed integer: the integer when it fits a `Long`, else null. */
  lemma ParseShowAny(n: int)
    ensures ParseLong(Show(n)) == if MinLong <= n <= MaxLong then Some(n) else None
  {
    if n < 0 {
      DigitsValueOfDigits(-n);
      assert Show(n)[1..] == Digits(-n);
    } else {
      DigitsValueOfDigits(n);
      assert Show(n)[0] != '-' && Show(n)[0] != '+';
    }
  }

  /** Every `Long` survives printing and parsing back. */
  lemma ParseShow(n: int)
    requires MinLong <= n <= MaxLong
    ensures ParseLong(Show(n)) == Some(n)
  {
    ParseShowAny(n);
  }

  /** The price `addBook` sends: `price.toLongOrNull() ?: 0L`. */
  function PriceOf(price: string): (p: int)
    ensures MinLong <= p <= MaxLong
    ensures ParseLong(price).None? ==> p == 0
  {
    ParseLong(price).GetOr(0)
  }

  /**
   * Text that is not a number, or a number too large for a `Long`, is sent
   * as price 0; a `Long` written out is sent as itself.
   */
  lemma PriceOfSpec(n: int)
    ensures PriceOf(Show(n)) == if MinLong <= n <= MaxLong then n else 0
    ensures PriceOf("") == 0 && PriceOf("-") == 0 && PriceOf("+") == 0
    ensures PriceOf("abc") == 0 && PriceOf(" 5") == 0
  {
    ParseShowAny(n);
    assert !IsDigit("abc"[0]);
    assert !IsDigit(" 5"[0]);
  }

  // ---------------------------------------------------------------------
  // The view model
  // ---------------------------------------------------------------------

  /**
   * The argument list of the `repo.addBook(...)` call. Its second argument
   * is the parsed price.
   */
  datatype AddBookRequest = AddBookRequest(
    title: string,
    price: int,
    desc: string,
    images: seq<Uri>,
    addressText: string,
    lat: Option<real>,
    lng: Option<real>)

  /** The text shown when the failure carries no message. */
  const SaveFailed: string := "Gagal menyimpan buku"

  /** The form state of `AddBookViewModel`. */
  class AddBookViewModel {
    var title: string
    var price: string
    var desc: string
    var images: seq<Uri>
    var useProfileAddr: bool
    var addressText: string
    var lat: Option<real>
    var lng: Option<real>
    var busy: bool
    var message: Option<string>

    /** A fresh form: everything empty, the profile address in use. */
    constructor()
      ensures title == "" && price == "" && desc == "" && images == []
      ensures useProfileAddr && addressText == "" && lat == None && lng == None
      ensures !busy && message == None
    {
      title, price, desc, images := "", "", "", [];
      useProfileAddr, addressText, lat, lng := true, "", None, None;
      busy, message := false, None;
    }

    /**
     * The `init` coroutine finishing, with `read` what `repo.getMyAddress()`
     * gave: the profile's address and coordinates fill the form; a read that
     * throws is not caught, and the form keeps what it held.
     */
    method LoadProfileAddress(read: Result<Repository.AddressTriple, Error>)
      modifies this`addressText, this`lat, this`lng
      ensures read.Success? ==>
                addressText == read.value.addressText && lat == read.value.lat && lng == read.value.lng
      ensures read.Failure? ==> addressText == old(addressText) && lat == old(lat) && lng == old(lng)
    {
      if read.Success? {
        addressText, lat, lng := read.value.addressText, read.value.lat, read.value.lng;
      }
    }

    /** `onImagesSelected(uris)`: the selection replaces the previous one. */
    method OnImagesSelected(uris: seq<Uri>)
      modifies this`images
      ensures images == uris
    {
      images := uris;
    }

    /**
     * `toggleUseProfileAddr(enable)`; `read` is what `getMyAddress()`
     * gives the coroutine launched when enabling.
     */
    method ToggleUseProfileAddr(enable: bool, read: Result<Repository.AddressTriple, Error>)
      modifies this`useProfileAddr, this`addressText, this`lat, this`lng
      ensures useProfileAddr == enable
      ensures enable && read.Success? ==>
                addressText == read.value.addressText && lat == read.value.lat && lng == read.value.lng
      ensures !enable || read.Failure? ==> addressText == old(addressText) && lat == old(lat) && lng == old(lng)
    {
      useProfileAddr := enable;
      if enable {
        LoadProfileAddress(read);
      }
    }

    /** `setManualAddress(text)`: ignored while the profile address is in use. */
    method SetManualAddress(text: string)
      modifies this`addressText
      ensures addressText == if old(useProfileAddr) then old(addressText) else text
    {
      if !useProfileAddr {
        addressText := text;
      }
    }

    /** `setManualLatLng(la, ln)`: both or neither, and neither while the profile address is in use. */
    method SetManualLatLng(la: real, ln: real)
      modifies this`lat, this`lng
      ensures useProfileAddr ==> lat == old(lat) && lng == old(lng)
      ensures !useProfileAddr ==> lat == Some(la) && lng == Some(ln)
    {
      if !useProfileAddr {
        lat, lng := Some(la), Some(ln);
      }
    }

    /** The call `addBook` makes for the current form. */
    function Request(): (req: AddBookRequest)
      reads this
      ensures req.title == Trim(title) && req.desc == Trim(desc) && req.addressText == Trim(addressText)
      ensures req.price == PriceOf(price)
      ensures req.images == images && req.lat == lat && req.lng == lng
    {
      AddBookRequest(Trim(title), PriceOf(price), Trim(desc), images, Trim(addressText), lat, lng)
    }

    /**
     * `addBook(onSuccess)`, with the repository call as `repo`: it sends
     * `Request()`, is no longer busy afterwards, and either reports success
     * (`onSuccess` runs, the message is kept) or shows the failure's
     * message, or "Gagal menyimpan buku" when it has none.
     */
    method AddBook(repo: AddBookRequest -> Result<(), Error>) returns (sent: AddBookRequest, succeeded: bool)
      modifies this`busy, this`message
      ensures sent == old(Request())
      ensures !busy
      ensures succeeded <==> repo(sent).Success?
      ensures succeeded ==> message == old(message)
      ensures !succeeded ==> message == Some(repo(sent).error.message.GetOr(SaveFailed))
    {
      sent := Request();
      busy := true;
      var r := repo(sent);
      busy := false;
      match r {
        case Success(_) =>
          succeeded := true;
        case Failure(e) =>
          succeeded := false;
          message := Some(e.message.GetOr(SaveFailed));
      }
    }
  }
}

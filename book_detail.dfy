/**
 * The book detail screen's WhatsApp contact: how the owner's phone number
 * is turned into a `wa.me` link, and when the owner card and the contact
 * button are shown.
 */
module BookDetail {
  import opened Text
  import Seqs

  /** The characters `openWhatsApp` keeps: all but '+', '-' and ' '. */
  predicate Kept(c: char) {
    c != '+' && c != '-' && c != ' '
  }

  /** `phoneNumber.replace("+", "").replace("-", "").replace(" ", "")`. */
  function StripPhone(phone: string): (r: string)
    ensures forall i :: 0 <= i < |r| ==> Kept(r[i])
  {
    var a := Remove(phone, '+');
    var b := Remove(a, '-');
    var r := Remove(b, ' ');
    RemoveKeepsAbsent(a, '-', '+');
    RemoveKeepsAbsent(b, ' ', '+');
    RemoveKeepsAbsent(b, ' ', '-');
    r
  }

  /** Removing a character introduces none that was absent. */
  lemma RemoveKeepsAbsent(s: string, c: char, d: char)
    requires d !in s
    ensures d !in Remove(s, c)
  {
    if d != c {
      assert multiset(Remove(s, c))[d] == multiset(s)[d] == 0;
    }
  }

  /**
   * The number put in the link: the stripped number, with a leading "08"
   * (a domestic Indonesian number) rewritten to "628".
   */
  function NormalizePhone(phone: string): (r: string)
    ensures var s := StripPhone(phone);
      if StartsWith(s, "08") then r == "62" + s[1..] else r == s
  {
    var s := StripPhone(phone);
    if StartsWith(s, "08") then "62" + s[1..] else s
  }

  /** The text offered to the owner, before URL encoding. */
  function Message(bookTitle: string): string {
    "Halo, saya tertarik meminjam buku \"" + bookTitle
      + "\" yang Anda tawarkan di Buku Keliling. Apakah masih tersedia?"
  }

  /** The link opened, given the URL-encoded message. */
  function WhatsAppUrl(phone: string, encodedMessage: string): (url: string)
    ensures StartsWith(url, "https://wa.me/")
    ensures url[|"https://wa.me/"|..] == NormalizePhone(phone) + "?text=" + encodedMessage
  {
    var url := "https://wa.me/" + NormalizePhone(phone) + "?text=" + encodedMessage;
    assert url[..|"https://wa.me/"|] == "https://wa.me/";
    url
  }

  /** Removing one character is filtering by "is not that character". */
  lemma {:induction false} RemoveIsFilter(s: string, c: char, keep: char -> bool)
    requires forall x :: keep(x) == (x != c)
    ensures Remove(s, c) == Seqs.Filter(s, keep)
  {
    if s != [] {
      RemoveIsFilter(s[1..], c, keep);
    }
  }

  /** Removing a character that does not occur changes nothing. */
  lemma {:induction false} RemoveAbsent(s: string, c: char)
    requires c !in s
    ensures Remove(s, c) == s
  {
    if s != [] {
      RemoveAbsent(s[1..], c);
      assert s == [s[0]] + s[1..];
    }
  }

  /**
   * Stripping keeps exactly the characters other than '+', '-' and ' ',
   * in their original order.
   */
  lemma StripKeepsOrder(phone: string)
    ensures StripPhone(phone) == Seqs.Filter(phone, Kept)
  {
    var notPlus := (c: char) => c != '+';
    var notDash := (c: char) => c != '-';
    var notSpace := (c: char) => c != ' ';
    var neither := (c: char) => c != '+' && c != '-';
    RemoveIsFilter(phone, '+', notPlus);
    RemoveIsFilter(Remove(phone, '+'), '-', notDash);
    RemoveIsFilter(Remove(Remove(phone, '+'), '-'), ' ', notSpace);
    Seqs.FilterFilter(phone, notPlus, notDash, neither);
    Seqs.FilterFilter(phone, neither, notSpace, Kept);
  }

  /** A number without '+', '-' or ' ' is left as it is by stripping. */
  lemma StripClean(phone: string)
    requires forall i :: 0 <= i < |phone| ==> Kept(phone[i])
    ensures StripPhone(phone) == phone
  {
    RemoveAbsent(phone, '+');
    RemoveAbsent(phone, '-');
    RemoveAbsent(phone, ' ');
  }

  /**
   * The normalised number has no '+', '-' or ' ', never starts with "08",
   * and normalising it again changes nothing.
   */
  lemma NormalizeIdempotent(phone: string)
    ensures forall i :: 0 <= i < |NormalizePhone(phone)| ==> Kept(NormalizePhone(phone)[i])
    ensures !StartsWith(NormalizePhone(phone), "08")
    ensures NormalizePhone(NormalizePhone(phone)) == NormalizePhone(phone)
  {
    var s := StripPhone(phone);
    var r := NormalizePhone(phone);
    if StartsWith(s, "08") {
      assert r[0] == '6';
      assert forall i :: 2 <= i < |r| ==> r[i] == s[i - 1];
    }
    StripClean(r);
  }

  /** The owner card is shown to a viewer who is not the owner once the owner's profile is loaded. */
  predicate ShowOwnerCard(isOwner: bool, ownerLoaded: bool) {
    !isOwner && ownerLoaded
  }

  /** The contact button sits in the owner card and needs an available book and a non-blank phone. */
  predicate ShowContactButton(isOwner: bool, ownerLoaded: bool, isAvailable: bool, phone: string) {
    ShowOwnerCard(isOwner, ownerLoaded) && isAvailable && !IsBlank(phone)
  }

  /**
   * The owner never sees the contact button, nor does anyone for a lent-out
   * book or an owner without a phone number; in every other case with the
   * owner loaded it is shown.
   */
  lemma ContactButtonSpec(isOwner: bool, ownerLoaded: bool, isAvailable: bool, phone: string)
    ensures ShowContactButton(isOwner, ownerLoaded, isAvailable, phone)
      <==> !isOwner && ownerLoaded && isAvailable && exists i :: 0 <= i < |phone| && !IsWhitespace(phone[i])
  {
  }
}

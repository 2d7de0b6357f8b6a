/**
 * The "Send to Mobile" screen: contacts become visible once the user
 * allows access, a search box filters them by name, picking one opens the
 * amount dialog, a valid amount moves on to the PIN modal, and PIN success
 * goes to the success page with the amount and the contact's name.
 */
module SendToMobile {
  import opened Options
  import opened JsText
  import opened Sequences
  import opened AmountField
  import opened Navigation

  datatype Contact = Contact(id: nat, name: string, phone: string)

  /** The contacts loaded once access is allowed. */
  const DummyContacts := [
    Contact(1, "Amma", "+91 98765 00001"),
    Contact(2, "Dad", "+91 98765 00002"),
    Contact(3, "Ramesh (Shop)", "+91 99887 77665"),
    Contact(4, "Priya", "+91 63000 12345")
  ]

  /** Case-insensitive substring match of the search text in the name. */
  predicate Matches(c: Contact, search: string)
    ensures search == [] ==> Matches(c, search)
    ensures Matches(c, search) ==> |search| <= |c.name|
  {
    assert search == [] ==> IsPrefix(ToLower(search), ToLower(c.name)[0..]);
    Includes(ToLower(c.name), ToLower(search))
  }

  /** The list rendered under the search box. */
  function FilterContacts(contacts: seq<Contact>, search: string): (r: seq<Contact>)
    ensures IsSubsequence(r, contacts)
    ensures forall i :: 0 <= i < |r| ==> Matches(r[i], search)
    ensures forall c :: multiset(r)[c] == if Matches(c, search) then multiset(contacts)[c] else 0
  {
    if contacts == [] then []
    else
      var rest := FilterContacts(contacts[1..], search);
      assert contacts == [contacts[0]] + contacts[1..];
      if Matches(contacts[0], search) then [contacts[0]] + rest else rest
  }

  /** With an empty search box every contact is shown, in order. */
  lemma {:induction false} EmptySearchShowsAll(contacts: seq<Contact>)
    ensures FilterContacts(contacts, "") == contacts
  {
    if contacts != [] {
      assert IsPrefix([], ToLower(contacts[0].name)[0..]);
      EmptySearchShowsAll(contacts[1..]);
    }
  }

  /** `handleProceedToPin` refuses an empty amount, a NaN and one that is
      not above zero. */
  predicate AmountAccepted(a: Amount)
    ensures AmountAccepted(a) <==> a.Entered? && a.value > 0.0
  {
    !(a.Blank? || IsNaN(a) || NumberAtMost(a, 0.0))
  }

  class Screen {
    var permissionGranted: bool
    var contacts: seq<Contact>
    var search: string
    var selected: Option<Contact>
    var amountModalOpen: bool
    var amount: Amount
    var pinOpen: bool

    /** Contacts are there only once access was allowed; the amount
        dialog and the PIN modal belong to a picked contact. */
    ghost predicate Valid()
      reads this
    {
      && (!permissionGranted ==> contacts == [])
      && (amountModalOpen || pinOpen ==> selected.Some?)
    }

    constructor ()
      ensures Valid()
      ensures !permissionGranted && contacts == [] && search == []
      ensures selected == None && !amountModalOpen && amount == Blank && !pinOpen
    {
      permissionGranted, contacts, search := false, [], [];
      selected, amountModalOpen, amount, pinOpen := None, false, Blank, false;
    }

    /** `requestPermission`; `allowed` is the answer to the confirm dialog. */
    method RequestPermission(allowed: bool)
      requires Valid()
      modifies this`permissionGranted, this`contacts
      ensures Valid()
      ensures allowed ==> permissionGranted && contacts == DummyContacts
      ensures !allowed ==> permissionGranted == old(permissionGranted) && contacts == old(contacts)
    {
      if allowed {
        permissionGranted := true;
        contacts := DummyContacts;
      }
    }

    method EditSearch(s: string)
      modifies this`search
      ensures search == s
    {
      search := s;
    }

    function Shown(): (r: seq<Contact>)
      reads this
      ensures !permissionGranted && Valid() ==> r == []
      ensures search == [] ==> r == contacts
    {
      EmptySearchShowsAll(contacts);
      FilterContacts(contacts, search)
    }

    /** `initiatePayment(contact)`. */
    method InitiatePayment(c: Contact)
      requires Valid()
      modifies this`selected, this`amount, this`amountModalOpen
      ensures Valid()
      ensures selected == Some(c) && amount == Blank && amountModalOpen
    {
      selected := Some(c);
      amount := Blank;
      amountModalOpen := true;
    }

    method EditAmount(a: Amount)
      modifies this`amount
      ensures amount == a
    {
      amount := a;
    }

    /** The dialog's close button. */
    method CloseAmountModal()
      requires Valid()
      modifies this`amountModalOpen
      ensures Valid() && !amountModalOpen
    {
      amountModalOpen := false;
    }

    /** `handleProceedToPin`, from the button inside the open dialog: a
        refused amount keeps the dialog open; an accepted one swaps the
        dialog for the PIN modal. */
    method HandleProceedToPin()
      requires Valid() && amountModalOpen
      modifies this`amountModalOpen, this`pinOpen
      ensures Valid()
      ensures !AmountAccepted(amount) ==> amountModalOpen && pinOpen == old(pinOpen)
      ensures AmountAccepted(amount) ==> !amountModalOpen && pinOpen
    {
      if amount.Blank? || IsNaN(amount) || NumberAtMost(amount, 0.0) {
        return;
      }
      amountModalOpen := false;
      pinOpen := true;
    }

    /** `handlePinSuccess`: the amount and the picked contact's name. */
    method HandlePinSuccess() returns (nav: SuccessPage<Amount>)
      requires Valid() && selected.Some?
      modifies this`pinOpen
      ensures Valid() && !pinOpen
      ensures nav == PaymentSuccess(amount, selected.value.name)
    {
      pinOpen := false;
      nav := PaymentSuccess(amount, selected.value.name);
    }
  }
}

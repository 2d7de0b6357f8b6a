/**
 * The dashboard balance card. The balance is hidden behind a mask until
 * the PIN modal reports success; hiding it again needs no PIN.
 */
module BalanceCard {
  /** The balance the card starts with. */
  const InitialBalance: real := 14250.00

  /** Shown in place of the amount while the balance is hidden. */
  const Mask := "••••••••"

  /** What the card's heading shows: the mask, or the balance (whose
      currency formatting is not part of this model). */
  datatype Display = Masked(mask: string) | Amount(balance: real)

  /** The two flags of the card. */
  datatype Flags = Flags(showBalance: bool, pinModalOpen: bool)

  const InitialFlags := Flags(false, false)

  /** The three things that can happen to the card: the eye button, the
      modal's `onSuccess` and its `onClose`. */
  datatype Event = ToggleBalance | PinSuccess | PinClose

  /** One event: `toggleBalance` hides a shown balance, or else only opens
      the PIN modal; `handlePinSuccess` closes the modal and shows the
      balance; `onClose` closes the modal. */
  function Step(f: Flags, e: Event): (r: Flags)
    ensures e == ToggleBalance && f.showBalance ==> r == Flags(false, f.pinModalOpen)
    ensures e == ToggleBalance && !f.showBalance ==> r == Flags(false, true)
    ensures e == PinSuccess ==> r == Flags(true, false)
    ensures e == PinClose ==> r == Flags(f.showBalance, false)
  {
    match e
    case ToggleBalance => if f.showBalance then f.(showBalance := false) else f.(pinModalOpen := true)
    case PinSuccess => Flags(true, false)
    case PinClose => f.(pinModalOpen := false)
  }

  /** The flags after a sequence of events on a freshly mounted card. */
  function Run(events: seq<Event>): Flags
  {
    if events == [] then InitialFlags
    else Step(Run(events[..|events| - 1]), events[|events| - 1])
  }

  /** Some PIN success happened and no eye-button press came after it. */
  predicate UnlockedSinceLastToggle(events: seq<Event>)
  {
    exists i :: 0 <= i < |events| && events[i] == PinSuccess &&
      forall j :: i < j < |events| ==> events[j] != ToggleBalance
  }

  /** The balance is shown exactly when the PIN modal has reported success
      and the eye button has not been pressed since: no sequence of eye
      presses and modal closes reveals it. */
  lemma {:induction false} ShownOnlyAfterPin(events: seq<Event>)
    ensures Run(events).showBalance <==> UnlockedSinceLastToggle(events)
  {
    if events != [] {
      var init, last := events[..|events| - 1], events[|events| - 1];
      ShownOnlyAfterPin(init);
      assert forall j :: 0 <= j < |init| ==> init[j] == events[j];
      if last == PinSuccess {
        assert events[|events| - 1] == PinSuccess;
      } else if last == PinClose {
        if UnlockedSinceLastToggle(init) {
          var i :| 0 <= i < |init| && init[i] == PinSuccess &&
            forall j :: i < j < |init| ==> init[j] != ToggleBalance;
          assert events[i] == PinSuccess;
        }
        if UnlockedSinceLastToggle(events) {
          var i :| 0 <= i < |events| && events[i] == PinSuccess &&
            forall j :: i < j < |events| ==> events[j] != ToggleBalance;
          assert init[i] == PinSuccess;
        }
      } else {
        forall i | 0 <= i < |events| && events[i] == PinSuccess
          ensures exists j :: i < j < |events| && events[j] == ToggleBalance
        {
          assert events[|events| - 1] == ToggleBalance;
        }
      }
    }
  }

  /** The heading: the balance while shown, the mask otherwise. */
  function Shown(f: Flags, balance: real): (d: Display)
    ensures f.showBalance ==> d == Amount(balance)
    ensures !f.showBalance ==> d == Masked(Mask)
  {
    if f.showBalance then Amount(balance) else Masked(Mask)
  }

  /** After any run of events the heading shows the balance exactly when
      the PIN modal has reported success and the eye button has not been
      pressed since; otherwise it shows the mask. */
  lemma HeadingAfterRun(events: seq<Event>, balance: real)
    ensures Shown(Run(events), balance) == Amount(balance) <==> UnlockedSinceLastToggle(events)
    ensures Shown(Run(events), balance) == Masked(Mask) <==> !UnlockedSinceLastToggle(events)
  {
    ShownOnlyAfterPin(events);
  }

  class Card {
    var showBalance: bool
    var pinModalOpen: bool
    var balance: real

    function Flagged(): Flags
      reads this
    {
      Flags(showBalance, pinModalOpen)
    }

    constructor ()
      ensures Flagged() == InitialFlags && balance == InitialBalance
    {
      showBalance, pinModalOpen, balance := false, false, InitialBalance;
    }

    /** The eye button. */
    method ToggleBalance()
      modifies this`showBalance, this`pinModalOpen
      ensures Flagged() == Step(old(Flagged()), Event.ToggleBalance)
      ensures !showBalance
    {
      if showBalance {
        showBalance := false;
      } else {
        pinModalOpen := true;
      }
    }

    /** The PIN modal's `onSuccess`. */
    method HandlePinSuccess()
      modifies this`showBalance, this`pinModalOpen
      ensures Flagged() == Step(old(Flagged()), Event.PinSuccess)
      ensures showBalance && !pinModalOpen
    {
      pinModalOpen := false;
      showBalance := true;
    }

    /** The PIN modal's `onClose`. */
    method ClosePinModal()
      modifies this`pinModalOpen
      ensures Flagged() == Step(old(Flagged()), Event.PinClose)
      ensures showBalance == old(showBalance)
    {
      pinModalOpen := false;
    }

  }
}

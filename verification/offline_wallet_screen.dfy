/**
 * The "Offline Wallet" screen: two tabs ('pay' and 'load'), an amount field
 * and a receiver field, and `handleTransaction`, which hands the amount to
 * the wallet hook and, on a successful payment, navigates to the success
 * page. No PIN is ever asked on this screen.
 */
module OfflineWalletScreen {
  import opened Options
  import opened OfflineLedger
  import opened Navigation

  datatype Tab = PayTab | LoadTab

  /** The receiver handed to `payOffline`: `receiver || "Merchant"`. */
  function PayeeId(receiver: string): (r: string)
    ensures r != []
    ensures receiver != [] ==> r == receiver
    ensures receiver == [] ==> r == "Merchant"
  {
    if receiver == [] then "Merchant" else receiver
  }

  /** The receiver shown on the success page: `receiver || "Offline Merchant"`
      (a different default from the one in the token). */
  function ShownReceiver(receiver: string): (r: string)
    ensures r != []
    ensures receiver != [] ==> r == receiver && r == PayeeId(receiver)
    ensures receiver == [] ==> r == "Offline Merchant" && r != PayeeId(receiver)
  {
    if receiver == [] then "Offline Merchant" else receiver
  }

  class Screen {
    /** The wallet hook the screen uses. */
    const wallet: OfflineWallet
    var activeTab: Tab
    /** The amount field: `None` is the empty string; `Some(v)` a typed
        amount of `v` minor units (the text "0" is not empty). */
    var amount: Option<nat>
    var receiver: string

    constructor (w: OfflineWallet)
      ensures wallet == w && activeTab == PayTab && amount == None && receiver == []
    {
      wallet := w;
      activeTab, amount, receiver := PayTab, None, [];
    }

    method SelectTab(t: Tab)
      modifies this`activeTab
      ensures activeTab == t
    {
      activeTab := t;
    }

    method EditAmount(a: Option<nat>)
      modifies this`amount
      ensures amount == a
    {
      amount := a;
    }

    method EditReceiver(r: string)
      modifies this`receiver
      ensures receiver == r
    {
      receiver := r;
    }

    /** `handleTransaction`. `date` and `now` stand for the clock. */
    method HandleTransaction(date: string, now: nat) returns (nav: Option<SuccessPage<nat>>)
      requires wallet.Persisted()
      modifies this`activeTab, this`amount, wallet`balance, wallet`logs, wallet`stored
      ensures wallet.Persisted()
      ensures Consistent(old(wallet.Current())) ==> Consistent(wallet.Current())
      ensures receiver == old(receiver)
      // An empty amount: no wallet call, nothing changes.
      ensures old(amount) == None ==>
        && nav == None && amount == None && activeTab == old(activeTab)
        && unchanged(wallet)
      // The load tab: the amount is loaded; on success the field is cleared
      // and the tab switches to 'pay', on refusal both stay as they were.
      ensures old(amount).Some? && old(activeTab) == LoadTab ==>
        var step := LoadStep(old(wallet.Current()), wallet.isOnline, old(amount).value, date);
        && wallet.Current() == step.1
        && nav == None
        && (step.0 ==> amount == None && activeTab == PayTab)
        && (!step.0 ==> amount == old(amount) && activeTab == LoadTab && unchanged(wallet))
      // The pay tab: pay to the receiver or "Merchant"; navigate to the
      // success page exactly when a token came back.
      ensures old(amount).Some? && old(activeTab) == PayTab ==>
        var step := PayStep(old(wallet.Current()), old(amount).value, PayeeId(receiver), now, date);
        && wallet.Current() == step.1
        && amount == old(amount) && activeTab == PayTab
        && (nav.Some? <==> step.0.Some?)
        && (nav.Some? ==> nav.value == PaymentSuccess(old(amount).value, ShownReceiver(receiver)))
    {
      nav := None;
      if amount == None {
        return;
      }
      if activeTab == LoadTab {
        var success := wallet.LoadMoney(amount.value, date);
        if success {
          amount := None;
          activeTab := PayTab;
        }
      } else {
        var token := wallet.PayOffline(amount.value, PayeeId(receiver), now, date);
        if token.Some? {
          nav := Some(PaymentSuccess(amount.value, ShownReceiver(receiver)));
        }
      }
    }
  }
}

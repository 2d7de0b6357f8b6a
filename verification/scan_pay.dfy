/**
 * The "Scan & Pay" screen: a step machine permission -> scanning -> amount,
 * and the payment rule at the amount step: an amount below 500 is paid at
 * once without a PIN ("UPI Lite"), 500 or more opens the PIN modal, and
 * the payment then completes only through the modal's success callback.
 */
module ScanPay {
  import opened Options
  import opened AmountField
  import opened Navigation

  datatype Step = Permission | Scanning | AmountStep

  datatype QrData = QrData(receiver: string, upiId: string)

  /** What the simulated scan finds. */
  const ScannedQr := QrData("Ramesh Kirana Store", "ramesh@upi")

  /** Below this amount no PIN is asked. */
  const FastPathLimit: real := 500.0

  datatype Decision = Rejected | PayWithoutPin | AskForPin

  /** `handleProceed`'s decision for the amount field. */
  function Proceed(a: Amount): (d: Decision)
    ensures d == Rejected <==> a.Blank? || (a.Entered? && a.value <= 0.0)
    ensures d == PayWithoutPin <==> a.Entered? && 0.0 < a.value < FastPathLimit
    ensures d == AskForPin <==> a.Malformed? || (a.Entered? && a.value >= FastPathLimit)
  {
    if a.Blank? || NumberAtMost(a, 0.0) then Rejected
    else if NumberBelow(a, FastPathLimit) then PayWithoutPin
    else AskForPin
  }

  /** The green "Pay Fast (No PIN)" button and the "UPI Lite Enabled" note
      are shown when `amount && Number(amount) < 500`. */
  predicate ShowsFastPath(a: Amount)
    ensures ShowsFastPath(a) <==> a.Entered? && a.value < FastPathLimit
  {
    !a.Blank? && NumberBelow(a, FastPathLimit)
  }

  /** The label uses the same threshold as the decision: every amount
      that is paid without a PIN shows the fast-path label, and a
      fast-path label on an amount that is not rejected means no PIN. */
  lemma FastPathLabelAgrees(a: Amount)
    ensures Proceed(a) == PayWithoutPin <==> ShowsFastPath(a) && Proceed(a) != Rejected
  {
  }

  class Screen {
    var step: Step
    var scannedData: Option<QrData>
    var amount: Amount
    var pinOpen: bool

    /** Steps only move forward; the scan result exists exactly from the
        amount step on, and the PIN modal opens only there. */
    ghost predicate Valid()
      reads this
    {
      && (scannedData.Some? <==> step == AmountStep)
      && (pinOpen ==> step == AmountStep)
    }

    constructor ()
      ensures Valid()
      ensures step == Permission && scannedData == None && amount == Blank && !pinOpen
    {
      step, scannedData, amount, pinOpen := Permission, None, Blank, false;
    }

    /** `startCamera`, from the permission prompt's "Allow Access" button. */
    method StartCamera()
      requires Valid() && step == Permission
      modifies this`step
      ensures Valid() && step == Scanning
    {
      step := Scanning;
    }

    /** The scan timer, which runs only while the step is 'scanning'. */
    method ScanTimerFires()
      requires Valid() && step == Scanning
      modifies this`step, this`scannedData
      ensures Valid() && step == AmountStep && scannedData == Some(ScannedQr)
    {
      scannedData := Some(ScannedQr);
      step := AmountStep;
    }

    method EditAmount(a: Amount)
      modifies this`amount
      ensures amount == a
    {
      amount := a;
    }

    /** `completeTransaction`: the entered amount and the scanned receiver. */
    function Completion(): (nav: SuccessPage<Amount>)
      requires Valid() && step == AmountStep
      reads this
      ensures nav.amount == amount && nav.receiver == scannedData.value.receiver
    {
      PaymentSuccess(amount, scannedData.value.receiver)
    }

    /** `handleProceed`, from the amount step's button. */
    method HandleProceed() returns (nav: Option<SuccessPage<Amount>>)
      requires Valid() && step == AmountStep
      modifies this`pinOpen
      ensures Valid()
      ensures Proceed(amount) == Rejected ==> nav == None && pinOpen == old(pinOpen)
      ensures Proceed(amount) == PayWithoutPin ==> nav == Some(Completion()) && pinOpen == old(pinOpen)
      ensures Proceed(amount) == AskForPin ==> nav == None && pinOpen
    {
      nav := None;
      match Proceed(amount)
      case Rejected =>
      case PayWithoutPin =>
        nav := Some(Completion());
      case AskForPin =>
        pinOpen := true;
    }

    /** The PIN modal's `onSuccess`: close it and complete the payment. */
    method PinSuccess() returns (nav: SuccessPage<Amount>)
      requires Valid() && step == AmountStep
      modifies this`pinOpen
      ensures Valid() && !pinOpen
      ensures nav == Completion()
    {
      pinOpen := false;
      nav := Completion();
    }

    /** The PIN modal's `onClose`. */
    method ClosePin()
      requires Valid()
      modifies this`pinOpen
      ensures Valid() && !pinOpen
    {
      pinOpen := false;
    }
  }
}

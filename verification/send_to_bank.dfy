/**
 * The "Send to Bank" form: five text fields, an IFSC "verified" flag, the
 * PIN modal, and a voice guide whose `currentStep` advances one prompt at a
 * time (0 to 5) as the fields fill in.
 */
module SendToBank {
  import opened Options
  import opened JsText
  import opened Navigation

  /** The `details` record. */
  datatype Details = Details(accNo: string, confirmAccNo: string, ifsc: string, holder: string, amount: string)

  const EmptyDetails := Details("", "", "", "", "")

  datatype Field = AccNo | ConfirmAccNo | Ifsc | Holder | Amount

  function Get(d: Details, f: Field): string
  {
    match f
    case AccNo => d.accNo
    case ConfirmAccNo => d.confirmAccNo
    case Ifsc => d.ifsc
    case Holder => d.holder
    case Amount => d.amount
  }

  /** `{ ...details, [field]: value }`: the named field takes the value and
      every other field keeps its own. */
  function With(d: Details, f: Field, value: string): (r: Details)
    ensures Get(r, f) == value
    ensures forall g :: g != f ==> Get(r, g) == Get(d, g)
  {
    match f
    case AccNo => d.(accNo := value)
    case ConfirmAccNo => d.(confirmAccNo := value)
    case Ifsc => d.(ifsc := value)
    case Holder => d.(holder := value)
    case Amount => d.(amount := value)
  }

  /** The last prompt of the voice guide. */
  const LastStep: nat := 5

  /** The voice-guide timer: which step follows `step` given the form. */
  function NextStep(step: nat, d: Details, verified: bool): (r: nat)
    // Each firing advances the guide by at most one prompt.
    ensures r == step || r == step + 1
    ensures step <= LastStep ==> r <= LastStep
    // The guards of the five transitions.
    ensures r == step + 1 && step == 1 ==> |d.accNo| > 9 && d.confirmAccNo == []
    ensures r == step + 1 && step == 2 ==> d.accNo == d.confirmAccNo != [] && d.ifsc == []
    ensures r == step + 1 && step == 3 ==> verified && d.holder == []
    ensures r == step + 1 && step == 4 ==> |d.holder| > 3 && d.amount == []
    ensures step == 0 ==> (r == 1 <==> d.accNo == [])
  {
    if step == 0 && d.accNo == [] then 1
    else if step == 1 && |d.accNo| > 9 && d.confirmAccNo == [] then 2
    else if step == 2 && d.accNo == d.confirmAccNo && |d.accNo| > 0 && d.ifsc == [] then 3
    else if step == 3 && verified && d.holder == [] then 4
    else if step == 4 && |d.holder| > 3 && d.amount == [] then 5
    else step
  }

  /** What the timer sees when it fires: the form and the flag. */
  datatype Observation = Observation(d: Details, verified: bool)

  /** The step after the timer has fired once per observation, from 0. */
  function StepAfter(obs: seq<Observation>): nat
  {
    if obs == [] then 0
    else
      var last := obs[|obs| - 1];
      NextStep(StepAfter(obs[..|obs| - 1]), last.d, last.verified)
  }

  /** However the form is filled in, the guide never goes past step 5,
      never goes back, and never takes more steps than the timer fired. */
  lemma {:induction false} GuideMonotone(obs: seq<Observation>, k: nat)
    requires k <= |obs|
    ensures StepAfter(obs[..k]) <= StepAfter(obs) <= LastStep
    ensures StepAfter(obs) <= |obs|
    decreases |obs|
  {
    if obs != [] {
      var init := obs[..|obs| - 1];
      if k < |obs| {
        assert obs[..k] == init[..k];
        GuideMonotone(init, k);
      } else {
        assert obs[..k] == obs;
        GuideMonotone(init, 0);
      }
    }
  }

  /** The Pay button is enabled: verified, with a holder and an amount. */
  predicate PayEnabled(d: Details, verified: bool)
    ensures !verified ==> !PayEnabled(d, verified)
  {
    verified && d.holder != [] && d.amount != []
  }

  /** `handlePayClick` goes on to the PIN: account, holder and amount given. */
  predicate PayAccepted(d: Details)
    ensures PayAccepted(d) <==> PayEnabled(d, true) && d.accNo != []
  {
    d.accNo != [] && d.holder != [] && d.amount != []
  }

  /** Nothing on the pay path compares the account number with its
      confirmation: a form whose two numbers differ reaches the PIN modal. */
  lemma PayIgnoresConfirmation()
    ensures var d := Details("1234567890", "9999999999", "SBIN0001", "Ravi", "100");
      PayEnabled(d, true) && PayAccepted(d) && d.accNo != d.confirmAccNo
  {
  }

  class Form {
    var details: Details
    var verified: bool
    var pinOpen: bool
    var currentStep: nat

    ghost predicate Valid()
      reads this
    {
      currentStep <= LastStep
    }

    constructor ()
      ensures Valid()
      ensures details == EmptyDetails && !verified && !pinOpen && currentStep == 0
    {
      details, verified, pinOpen, currentStep := EmptyDetails, false, false, 0;
    }

    /** The debounced voice-guide timer firing. */
    method VoiceTick()
      requires Valid()
      modifies this`currentStep
      ensures Valid()
      ensures currentStep == NextStep(old(currentStep), details, verified)
    {
      currentStep := NextStep(currentStep, details, verified);
    }

    /** `handleInputChange(field, value)`. */
    method HandleInputChange(f: Field, value: string)
      modifies this`details
      ensures details == With(old(details), f, value)
    {
      details := With(details, f, value);
    }

    /** The IFSC field's change handler: store the text uppercased and
        drop the verification. */
    method EditIfsc(value: string)
      modifies this`details, this`verified
      ensures details == With(old(details), Ifsc, ToUpper(value))
      ensures !verified
    {
      HandleInputChange(Ifsc, ToUpper(value));
      verified := false;
    }

    /** `verifyIFSC`: a code longer than four characters is accepted;
        a shorter one only raises an alert and leaves the flag as it was. */
    method VerifyIfsc()
      modifies this`verified
      ensures |details.ifsc| > 4 ==> verified
      ensures |details.ifsc| <= 4 ==> verified == old(verified)
    {
      if |details.ifsc| > 4 {
        verified := true;
      }
    }

    /** `handlePayClick`. */
    method HandlePayClick()
      modifies this`pinOpen
      ensures PayAccepted(details) ==> pinOpen
      ensures !PayAccepted(details) ==> pinOpen == old(pinOpen)
    {
      if details.accNo == [] || details.holder == [] || details.amount == [] {
        return;
      }
      pinOpen := true;
    }

    /** `handlePinSuccess`: close the modal and go to the success page with
        the typed amount and the holder's name. */
    method HandlePinSuccess() returns (nav: SuccessPage<string>)
      modifies this`pinOpen
      ensures !pinOpen
      ensures nav.amount == details.amount && nav.receiver == details.holder
    {
      pinOpen := false;
      nav := PaymentSuccess(details.amount, details.holder);
    }
  }
}

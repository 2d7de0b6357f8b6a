/**
 * The four-step registration wizard: personal details, bank details, a
 * KYC document, and a voice check that must pass before the form can be
 * submitted. Only the fields that were filled in among the optional ones
 * are sent.
 */
module Register {
  import opened Options
  import opened JsText

  /** `formData`; the KYC document is represented by its file name. */
  datatype FormData = FormData(
    name: string, mobile: string, password: string,
    accountNo: string, ifsc: string, kycDoc: Option<string>)

  const EmptyForm := FormData("", "", "", "", "", None)

  const FirstStep: int := 1
  const VoiceStep: int := 4

  /** The transcript check of `handleVoiceRecord`. */
  predicate VoicePhraseOk(text: string)
    ensures VoicePhraseOk(text) ==> |text| >= 5
  {
    Includes(ToLower(text), "voice") || Includes(ToLower(text), "password") || |text| > 5
  }

  /** A text of at most five characters that contains `word` of five
      characters is that word. */
  lemma IncludedInShort(s: string, word: string)
    requires |word| == 5 && |s| <= 5 && Includes(s, word)
    ensures s == word
  {
    var i :| 0 <= i <= |s| - |word| && IsPrefix(word, s[i..]);
    assert i == 0 && s[0..] == s;
  }

  /** The check is far looser than the phrase it asks for: any transcript
      longer than five characters passes, and a shorter one passes only if
      it reads "voice" in any letter case. */
  lemma VoicePhraseOkIff(text: string)
    ensures VoicePhraseOk(text) <==> |text| > 5 || ToLower(text) == "voice"
  {
    var lower := ToLower(text);
    if |text| <= 5 {
      if Includes(lower, "voice") {
        IncludedInShort(lower, "voice");
      }
      if lower == "voice" {
        assert IsPrefix("voice", lower[0..]);
      }
    }
  }

  /** The spoken instruction chosen for a step. */
  datatype Instruction = PersonalDetails | BankDetails | UploadKyc | VoiceAuth

  function InstructionFor(step: int): (r: Instruction)
    ensures step == 1 <==> r == PersonalDetails
    ensures step == 2 <==> r == BankDetails
    ensures step == 3 <==> r == UploadKyc
    ensures step !in {1, 2, 3} <==> r == VoiceAuth
  {
    if step == 1 then PersonalDetails
    else if step == 2 then BankDetails
    else if step == 3 then UploadKyc
    else VoiceAuth
  }

  /** The four progress dots: dot `i + 1` is highlighted when `step >= i + 1`. */
  function ProgressDots(step: int): (r: seq<bool>)
    ensures |r| == 4
    ensures forall i :: 0 <= i < 4 ==> (r[i] <==> step >= i + 1)
  {
    seq(4, i requires 0 <= i < 4 => step >= i + 1)
  }

  /** On every step the wizard can be on, the highlighted dots are exactly
      the first `step` ones. */
  lemma ProgressDotsPrefix(step: int)
    requires FirstStep <= step <= VoiceStep
    ensures forall i :: 0 <= i < step ==> ProgressDots(step)[i]
    ensures forall i :: step <= i < 4 ==> !ProgressDots(step)[i]
  {
  }

  /** One part of the multipart request body. */
  datatype Part = Part(key: string, value: string)

  function Keys(parts: seq<Part>): (r: seq<string>)
    ensures |r| == |parts|
    ensures forall i :: 0 <= i < |parts| ==> r[i] == parts[i].key
  {
    seq(|parts|, i requires 0 <= i < |parts| => parts[i].key)
  }

  /** The key of an optional part: present only when its field is given. */
  function OptionalKey(key: string, given: bool): seq<string>
  {
    if given then [key] else []
  }

  lemma KeysConcat(a: seq<Part>, b: seq<Part>)
    ensures Keys(a + b) == Keys(a) + Keys(b)
  {
  }

  /** The request body of `handleRegister`: name, mobile and password
      always, first and in that order; then the account number, the IFSC
      and the document, each only when given. */
  function RegistrationBody(f: FormData): (r: seq<Part>)
    ensures |r| >= 3
    ensures r[..3] == [Part("full_name", f.name), Part("mobile", f.mobile), Part("password", f.password)]
    ensures Keys(r) == ["full_name", "mobile", "password"]
      + OptionalKey("account_no", f.accountNo != [])
      + OptionalKey("ifsc", f.ifsc != [])
      + OptionalKey("kyc_doc", f.kycDoc.Some?)
    ensures f.accountNo != [] ==> Part("account_no", f.accountNo) in r
    ensures f.ifsc != [] ==> Part("ifsc", f.ifsc) in r
    ensures f.kycDoc.Some? ==> Part("kyc_doc", f.kycDoc.value) in r
  {
    var required := [Part("full_name", f.name), Part("mobile", f.mobile), Part("password", f.password)];
    var account := if f.accountNo != [] then [Part("account_no", f.accountNo)] else [];
    var ifsc := if f.ifsc != [] then [Part("ifsc", f.ifsc)] else [];
    var doc := if f.kycDoc.Some? then [Part("kyc_doc", f.kycDoc.value)] else [];
    KeysConcat(required, account);
    KeysConcat(required + account, ifsc);
    KeysConcat(required + account + ifsc, doc);
    required + account + ifsc + doc
  }

  /** Each optional key is sent exactly when its field is given, and the
      three required keys are always sent. */
  lemma OptionalKeysSentIff(f: FormData)
    ensures "account_no" in Keys(RegistrationBody(f)) <==> f.accountNo != []
    ensures "ifsc" in Keys(RegistrationBody(f)) <==> f.ifsc != []
    ensures "kyc_doc" in Keys(RegistrationBody(f)) <==> f.kycDoc.Some?
    ensures forall k :: k in ["full_name", "mobile", "password"] ==> k in Keys(RegistrationBody(f))
  {
    var keys := Keys(RegistrationBody(f));
    var req := ["full_name", "mobile", "password"];
    var a, i, d := OptionalKey("account_no", f.accountNo != []), OptionalKey("ifsc", f.ifsc != []), OptionalKey("kyc_doc", f.kycDoc.Some?);
    assert keys == req + a + i + d;
    assert "account_no" !in req && "ifsc" !in req && "kyc_doc" !in req;
    assert "account_no" !in i && "account_no" !in d;
    assert "ifsc" !in a && "ifsc" !in d;
    assert "kyc_doc" !in a && "kyc_doc" !in i;
  }

  class Wizard {
    var step: int
    var voiceVerified: bool
    var form: FormData

    ghost predicate Valid()
      reads this
    {
      FirstStep <= step <= VoiceStep
    }

    constructor ()
      ensures Valid() && step == FirstStep && !voiceVerified && form == EmptyForm
    {
      step, voiceVerified, form := FirstStep, false, EmptyForm;
    }

    /** Each of the first three steps' "Next" button. */
    method HandleNext()
      requires Valid() && step < VoiceStep
      modifies this`step
      ensures Valid() && step == old(step) + 1
    {
      step := step + 1;
    }

    /** The back arrow: on the first step it leaves for the login page,
        otherwise it is `handleBack`. */
    method BackPressed() returns (toLogin: bool)
      requires Valid()
      modifies this`step
      ensures Valid()
      ensures toLogin <==> old(step) == FirstStep
      ensures toLogin ==> step == old(step)
      ensures !toLogin ==> step == old(step) - 1
    {
      toLogin := step == FirstStep;
      if !toLogin {
        step := step - 1;
      }
    }

    method EditForm(f: FormData)
      modifies this`form
      ensures form == f
    {
      form := f;
    }

    /** The recognition callback of `handleVoiceRecord`: a failed check
        leaves the flag as it was. */
    method HandleVoiceResult(text: string)
      modifies this`voiceVerified
      ensures voiceVerified == (old(voiceVerified) || VoicePhraseOk(text))
    {
      if Includes(ToLower(text), "voice") || Includes(ToLower(text), "password") || |text| > 5 {
        voiceVerified := true;
      }
    }

    /** `handleRegister` up to the request: without the voice check it
        sends nothing; otherwise it sends `RegistrationBody(form)`. */
    method HandleRegister() returns (body: Option<seq<Part>>)
      ensures body.None? <==> !voiceVerified
      ensures body.Some? ==> body.value == RegistrationBody(form)
    {
      if !voiceVerified {
        return None;
      }
      body := Some(RegistrationBody(form));
    }
  }
}

/**
 * The scam checker: pasted text is classified, after a simulated two
 * second analysis, by four keywords. The analysis reads the text as it was
 * when the button was pressed; typing afterwards puts the status back to
 * idle but does not cancel an analysis already under way.
 */
module ScamShield {
  import opened Options
  import opened JsText

  datatype Status = Idle | Analyzing | Safe | Danger

  datatype Report = Report(score: nat, title: string, message: string, flags: seq<string>)

  const Keywords: seq<string> := ["lottery", "winner", "click here", "kyc suspended"]

  /** Some keyword occurs in the lowercased text. */
  predicate IsSuspicious(text: string)
    ensures IsSuspicious(text) ==> |text| >= 6
  {
    var lower := ToLower(text);
    Includes(lower, "lottery") || Includes(lower, "winner") ||
    Includes(lower, "click here") || Includes(lower, "kyc suspended")
  }

  lemma SuspiciousIffKeyword(text: string)
    ensures IsSuspicious(text) <==> exists k :: 0 <= k < |Keywords| && Includes(ToLower(text), Keywords[k])
  {
    var lower := ToLower(text);
    if Includes(lower, "lottery") { assert Keywords[0] == "lottery"; }
    if Includes(lower, "winner") { assert Keywords[1] == "winner"; }
    if Includes(lower, "click here") { assert Keywords[2] == "click here"; }
    if Includes(lower, "kyc suspended") { assert Keywords[3] == "kyc suspended"; }
  }

  const DangerReport := Report(15, "High Risk Detected",
    "This message contains patterns commonly used in phishing attacks. Do not click any links.",
    ["Urgency ('Suspended')", "Unknown Link", "Monetary Promise"])

  const SafeReport := Report(98, "Message Appears Safe",
    "No suspicious keywords or malicious links were found in this text.", [])

  /** The outcome of the analysis of `text`. */
  function Analyse(text: string): (r: (Status, Report))
    ensures r.0 == Danger <==> IsSuspicious(text)
    ensures r.0 == Safe <==> !IsSuspicious(text)
    ensures r.0 == Danger ==> r.1.score == 15 && |r.1.flags| == 3
    ensures r.0 == Safe ==> r.1.score == 98 && r.1.flags == []
  {
    if IsSuspicious(text) then (Danger, DangerReport) else (Safe, SafeReport)
  }

  /** Letter case does not matter. */
  lemma AnalyseIgnoresCase(text: string)
    ensures Analyse(ToLower(text)) == Analyse(text)
  {
    ToLowerIdempotent(text);
  }

  lemma TypicalScamIsDanger()
    ensures Analyse("Your KYC Suspended. Click Here now").0 == Danger
  {
    var lower := ToLower("Your KYC Suspended. Click Here now");
    assert lower[20..] == "click here now";
    assert IsPrefix("click here", lower[20..]);
  }

  class Checker {
    var inputText: string
    var status: Status
    var result: Option<Report>
    /** The texts captured by analyses still under way, oldest first. */
    var pending: seq<string>

    constructor ()
      ensures inputText == [] && status == Idle && result == None && pending == []
    {
      inputText, status, result, pending := [], Idle, None, [];
    }

    /** `handleAnalyze`: blank text starts nothing; otherwise the status
        becomes 'analyzing' and the current text is queued for the timer. */
    method HandleAnalyze()
      modifies this`status, this`pending
      ensures IsBlank(inputText) ==> status == old(status) && pending == old(pending)
      ensures !IsBlank(inputText) ==> status == Analyzing && pending == old(pending) + [inputText]
    {
      TrimEmptyIffBlank(inputText);
      if Trim(inputText) == [] {
        return;
      }
      status := Analyzing;
      pending := pending + [inputText];
    }

    /** The analysis timer: the oldest queued text decides the status and
        the report. */
    method AnalysisDone()
      requires pending != []
      modifies this`status, this`result, this`pending
      ensures var outcome := Analyse(old(pending)[0]);
        status == outcome.0 && result == Some(outcome.1)
      ensures pending == old(pending)[1..]
    {
      var text := pending[0];
      pending := pending[1..];
      var outcome := Analyse(text);
      status, result := outcome.0, Some(outcome.1);
    }

    /** Typing in the box: a status other than 'idle' goes back to 'idle';
        the result and any analysis under way are kept. */
    method EditText(t: string)
      modifies this`inputText, this`status
      ensures inputText == t
      ensures status == Idle
    {
      inputText := t;
      if status != Idle {
        status := Idle;
      }
    }

    /** The "Clear" button: empties the box and leaves the status alone. */
    method Clear()
      modifies this`inputText
      ensures inputText == []
    {
      inputText := [];
    }
  }
}
